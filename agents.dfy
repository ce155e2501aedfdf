/**
 * The user-management rules of `src/pages/Agents.tsx`: the search filter,
 * the validation and request bodies of create and edit, the role label, and
 * the page's form state as a class whose handlers update it step by step.
 * The API calls are not performed: whether a call succeeded is a parameter.
 */
module Agents {
  import opened Wrappers
  import opened JsValue

  /** The two tabs; a user's `role` is one of them. */
  datatype Role = AgentRole | EmployeeRole

  /** The role as the API spells it. */
  function RoleName(r: Role): string
  {
    match r
    case AgentRole => "agent"
    case EmployeeRole => "employee"
  }

  /** A listed user; `id` holds the user's `_id`, the key the page sends back. */
  datatype Agent = Agent(id: string, name: string, username: string, isActive: bool, role: Role)

  /** The dialog form's fields. */
  datatype AgentForm = AgentForm(name: string, username: string, password: string, isActive: bool)

  /** The form as `resetForm` leaves it. */
  const BlankForm := AgentForm("", "", "", true)

  // ---------------------------------------------------------------------------
  // Role label
  // ---------------------------------------------------------------------------

  /** `s.charAt(0).toUpperCase() + s.slice(1)`. */
  function Capitalize(s: string): (r: string)
    ensures |r| == |s|
  {
    if s == [] then [] else [UpperChar(s[0])] + s[1..]
  }

  /** The label shown in titles and messages: the capitalised role name. */
  function RoleLabel(r: Role): string
  {
    Capitalize(RoleName(r))
  }

  /**
   * Capitalising changes the first character only, and only its case:
   * lower-cased, the label is the original lower-cased; capitalising twice
   * is capitalising once.
   */
  lemma CapitalizeOnlyChangesCase(s: string)
    ensures s != [] ==> Capitalize(s)[0] == UpperChar(s[0]) && Capitalize(s)[1..] == s[1..]
    ensures Lower(Capitalize(s)) == Lower(s)
    ensures Capitalize(Capitalize(s)) == Capitalize(s)
  {
    if s != [] {
      assert Lower(Capitalize(s))[0] == LowerChar(UpperChar(s[0]));
    }
  }

  /** The two labels the page shows. */
  lemma RoleLabels()
    ensures RoleLabel(AgentRole) == "Agent"
    ensures RoleLabel(EmployeeRole) == "Employee"
  {
  }

  // ---------------------------------------------------------------------------
  // Search filter
  // ---------------------------------------------------------------------------

  /** An agent matches when its lower-cased name or username includes the lower-cased search. */
  predicate Matches(agent: Agent, search: string)
  {
    Contains(Lower(agent.name), Lower(search)) || Contains(Lower(agent.username), Lower(search))
  }

  /** `filteredAgents`: the matching agents, in list order. */
  function Filtered(agents: seq<Agent>, search: string): (r: seq<Agent>)
    ensures |r| <= |agents|
  {
    if agents == [] then []
    else (if Matches(agents[0], search) then [agents[0]] else []) + Filtered(agents[1..], search)
  }

  /** `xs` can be obtained from `ys` by deleting elements. */
  predicate IsSubsequence<T(==)>(xs: seq<T>, ys: seq<T>)
    decreases |ys|
  {
    if xs == [] then true
    else if ys == [] then false
    else (xs[0] == ys[0] && IsSubsequence(xs[1..], ys[1..])) || IsSubsequence(xs, ys[1..])
  }

  /** The filtered list keeps agents in their original order. */
  lemma {:induction false} FilteredIsSubsequence(agents: seq<Agent>, search: string)
    ensures IsSubsequence(Filtered(agents, search), agents)
  {
    if agents != [] {
      FilteredIsSubsequence(agents[1..], search);
      if Matches(agents[0], search) {
        assert Filtered(agents, search)[1..] == Filtered(agents[1..], search);
      } else {
        var r := Filtered(agents, search);
        assert r == Filtered(agents[1..], search);
        if r != [] {
          assert IsSubsequence(r, agents[1..]);
        }
      }
    }
  }

  /** An agent is shown exactly when it is listed and matches the search. */
  lemma {:induction false} FilteredMembership(agents: seq<Agent>, search: string, a: Agent)
    ensures a in Filtered(agents, search) <==> a in agents && Matches(a, search)
  {
    if agents != [] {
      FilteredMembership(agents[1..], search, a);
      assert agents == [agents[0]] + agents[1..];
    }
  }

  /** Filtering a concatenation filters each part: every matching occurrence is kept. */
  lemma {:induction false} FilteredConcat(a: seq<Agent>, b: seq<Agent>, search: string)
    ensures Filtered(a + b, search) == Filtered(a, search) + Filtered(b, search)
  {
    if a == [] {
      assert a + b == b;
    } else {
      FilteredConcat(a[1..], b, search);
      var head := if Matches(a[0], search) then [a[0]] else [];
      assert (a + b)[0] == a[0] && (a + b)[1..] == a[1..] + b;
      assert Filtered(a + b, search) == head + Filtered(a[1..] + b, search);
      assert Filtered(a, search) == head + Filtered(a[1..], search);
      assert head + (Filtered(a[1..], search) + Filtered(b, search))
          == (head + Filtered(a[1..], search)) + Filtered(b, search);
    }
  }

  /** A single agent is kept exactly when it matches. */
  lemma FilteredSingleton(x: Agent, search: string)
    ensures Filtered([x], search) == if Matches(x, search) then [x] else []
  {
    assert [x][1..] == [];
  }

  /** Each agent occurs in the result as often as in the list when it matches, and never otherwise. */
  lemma {:induction false} FilteredOccurrences(agents: seq<Agent>, search: string, x: Agent)
    ensures multiset(Filtered(agents, search))[x] == if Matches(x, search) then multiset(agents)[x] else 0
  {
    if agents != [] {
      FilteredOccurrences(agents[1..], search, x);
      assert agents == [agents[0]] + agents[1..];
      assert multiset(agents) == multiset([agents[0]]) + multiset(agents[1..]);
    }
  }

  /** An empty search shows every agent. */
  lemma {:induction false} EmptySearchKeepsAll(agents: seq<Agent>)
    ensures Filtered(agents, "") == agents
  {
    if agents != [] {
      ContainsEmpty(Lower(agents[0].name));
      EmptySearchKeepsAll(agents[1..]);
    }
  }

  /** The search ignores the case of what was typed. */
  lemma {:induction false} FilterIgnoresSearchCase(agents: seq<Agent>, search: string)
    ensures Filtered(agents, Lower(search)) == Filtered(agents, search)
    ensures Filtered(agents, Upper(search)) == Filtered(agents, search)
  {
    LowerIdempotent(search);
    LowerOfUpper(search);
    if agents != [] {
      FilterIgnoresSearchCase(agents[1..], search);
    }
  }

  // ---------------------------------------------------------------------------
  // Create and edit requests
  // ---------------------------------------------------------------------------

  /** `handleCreateAgent` refuses a form with an empty name, username or password. */
  predicate CreateRejected(form: AgentForm)
  {
    form.name == "" || form.username == "" || form.password == ""
  }

  /** `handleEditAgent` refuses when no agent is selected or the name or username is empty. */
  predicate EditRejected(selected: Option<Agent>, form: AgentForm)
  {
    selected.None? || form.name == "" || form.username == ""
  }

  /** The body `createUser` receives: the three form strings and the active tab's role. */
  function CreateBody(form: AgentForm, tab: Role): (body: map<string, Value>)
    ensures body.Keys == {"name", "username", "password", "role"}
    ensures body["name"] == Str(form.name) && body["username"] == Str(form.username)
    ensures body["password"] == Str(form.password) && body["role"] == Str(RoleName(tab))
  {
    map["name" := Str(form.name), "username" := Str(form.username),
        "password" := Str(form.password), "role" := Str(RoleName(tab))]
  }

  /** The create request the page sends, if any. */
  function CreateRequest(form: AgentForm, tab: Role): (r: Option<map<string, Value>>)
    ensures r.None? <==> CreateRejected(form)
    ensures r.Some? ==> r.value == CreateBody(form, tab)
  {
    if CreateRejected(form) then None else Some(CreateBody(form, tab))
  }

  /**
   * The body `updateUserById` receives: name, username and `isActive` always,
   * the password only when one was typed.
   */
  function UpdateBody(form: AgentForm): (body: map<string, Value>)
    ensures body.Keys == {"name", "username", "isActive"} + (if form.password != "" then {"password"} else {})
    ensures body["name"] == Str(form.name) && body["username"] == Str(form.username)
    ensures body["isActive"] == Bool(form.isActive)
    ensures "password" in body <==> form.password != ""
    ensures "password" in body ==> body["password"] == Str(form.password)
  {
    var fixed := map["name" := Str(form.name), "username" := Str(form.username), "isActive" := Bool(form.isActive)];
    if form.password == "" then fixed else fixed + map["password" := Str(form.password)]
  }

  /** `updateData` built as the handler builds it: the fixed fields, then the password assigned in place. */
  method BuildUpdateData(form: AgentForm) returns (updateData: map<string, Value>)
    ensures updateData == UpdateBody(form)
  {
    updateData := map["name" := Str(form.name), "username" := Str(form.username), "isActive" := Bool(form.isActive)];
    if form.password != "" {
      updateData := updateData["password" := Str(form.password)];
    }
  }

  /** The form `openEditDialog` fills in from an agent. */
  function EditForm(agent: Agent): (form: AgentForm)
    ensures form.password == ""
  {
    AgentForm(agent.name, agent.username, "", agent.isActive)
  }

  /**
   * Submitting the edit dialog as it was opened sends the agent's own name,
   * username and status and leaves its password alone; it is accepted
   * exactly when the agent's name and username are non-empty.
   */
  lemma UntouchedEditKeepsPassword(agent: Agent)
    ensures "password" !in UpdateBody(EditForm(agent))
    ensures UpdateBody(EditForm(agent)) ==
      map["name" := Str(agent.name), "username" := Str(agent.username), "isActive" := Bool(agent.isActive)]
    ensures !EditRejected(Some(agent), EditForm(agent)) <==> agent.name != "" && agent.username != ""
  {
  }

  /** A reset form passes neither validation: both dialogs demand non-empty fields. */
  lemma BlankFormRejected(selected: Option<Agent>)
    ensures CreateRejected(BlankForm)
    ensures EditRejected(selected, BlankForm)
  {
  }

  // ---------------------------------------------------------------------------
  // Page state
  // ---------------------------------------------------------------------------

  /** The component state of the user-management page. */
  class AgentsPage {
    var search: string
    var agents: seq<Agent>
    var isLoading: bool
    var activeTab: Role
    var isCreateDialogOpen: bool
    var isEditDialogOpen: bool
    var isDeleteDialogOpen: bool
    var selectedAgent: Option<Agent>
    var formData: AgentForm
    var isSubmitting: bool

    /** The initial state of every `useState`. */
    constructor ()
      ensures search == "" && agents == [] && isLoading && activeTab == AgentRole
      ensures !isCreateDialogOpen && !isEditDialogOpen && !isDeleteDialogOpen
      ensures selectedAgent.None? && formData == BlankForm && !isSubmitting
    {
      search, agents, isLoading, activeTab := "", [], true, AgentRole;
      isCreateDialogOpen, isEditDialogOpen, isDeleteDialogOpen := false, false, false;
      selectedAgent, formData, isSubmitting := None, BlankForm, false;
    }

    /** The agents currently listed under the search box. */
    function Visible(): (r: seq<Agent>)
      reads this
      ensures forall a :: a in r <==> a in agents && Matches(a, search)
    {
      FilteredMembershipAll(agents, search);
      Filtered(agents, search)
    }

    /** Typing in the search box. */
    method SetSearch(text: string)
      modifies this`search
      ensures search == text
    {
      search := text;
    }

    /**
     * The end of `loadAgents`: the users received, or the empty list when
     * the reply carried none or the call failed.
     */
    method FinishLoadAgents(users: Option<seq<Agent>>)
      modifies this`agents, this`isLoading
      ensures agents == (if users.Some? then users.value else [])
      ensures !isLoading
    {
      agents := if users.Some? then users.value else [];
      isLoading := false;
    }

    /** `resetForm`. */
    method ResetForm()
      modifies this`formData
      ensures formData == BlankForm
    {
      formData := BlankForm;
    }

    /** `openCreateDialog`: a blank form in an open dialog. */
    method OpenCreateDialog()
      modifies this`formData, this`isCreateDialogOpen
      ensures formData == BlankForm && isCreateDialogOpen
    {
      ResetForm();
      isCreateDialogOpen := true;
    }

    /** `closeCreateDialog`. */
    method CloseCreateDialog()
      modifies this`formData, this`isCreateDialogOpen, this`isSubmitting
      ensures formData == BlankForm && !isCreateDialogOpen && !isSubmitting
    {
      isCreateDialogOpen := false;
      isSubmitting := false;
      ResetForm();
    }

    /** `openEditDialog`: the agent is selected and its fields prefill the form, password blank. */
    method OpenEditDialog(agent: Agent)
      modifies this`selectedAgent, this`formData, this`isEditDialogOpen
      ensures selectedAgent == Some(agent) && formData == EditForm(agent) && isEditDialogOpen
    {
      selectedAgent := Some(agent);
      formData := AgentForm(agent.name, agent.username, "", agent.isActive);
      isEditDialogOpen := true;
    }

    /** `closeEditDialog`. */
    method CloseEditDialog()
      modifies this`formData, this`isEditDialogOpen, this`isSubmitting, this`selectedAgent
      ensures formData == BlankForm && !isEditDialogOpen && !isSubmitting && selectedAgent.None?
    {
      isEditDialogOpen := false;
      isSubmitting := false;
      selectedAgent := None;
      ResetForm();
    }

    /** `openDeleteDialog`. */
    method OpenDeleteDialog(agent: Agent)
      modifies this`selectedAgent, this`isDeleteDialogOpen
      ensures selectedAgent == Some(agent) && isDeleteDialogOpen
    {
      selectedAgent := Some(agent);
      isDeleteDialogOpen := true;
    }

    /**
     * `handleCreateAgent`. A rejected form sends nothing and changes nothing;
     * otherwise the create body is sent and, when the call succeeds, the
     * dialog closes, otherwise only submission ends.
     */
    method HandleCreateAgent(succeeded: bool) returns (sent: Option<map<string, Value>>)
      modifies this`formData, this`isCreateDialogOpen, this`isSubmitting
      ensures sent == CreateRequest(old(formData), activeTab)
      ensures sent.None? ==>
        formData == old(formData) && isCreateDialogOpen == old(isCreateDialogOpen) && isSubmitting == old(isSubmitting)
      ensures sent.Some? && succeeded ==> formData == BlankForm && !isCreateDialogOpen && !isSubmitting
      ensures sent.Some? && !succeeded ==>
        formData == old(formData) && isCreateDialogOpen == old(isCreateDialogOpen) && !isSubmitting
    {
      if formData.name == "" || formData.username == "" || formData.password == "" {
        return None;
      }
      isSubmitting := true;
      sent := Some(CreateBody(formData, activeTab));
      if succeeded {
        CloseCreateDialog();
      } else {
        isSubmitting := false;
      }
    }

    /**
     * `handleEditAgent`. A rejected edit sends nothing and changes nothing;
     * otherwise the selected agent's identifier and the update body are sent
     * and, when the call succeeds, the dialog closes and the selection is
     * cleared, otherwise only submission ends.
     */
    method HandleEditAgent(succeeded: bool) returns (sent: Option<(string, map<string, Value>)>)
      modifies this`formData, this`isEditDialogOpen, this`isSubmitting, this`selectedAgent
      ensures sent.None? <==> EditRejected(old(selectedAgent), old(formData))
      ensures sent.Some? ==> sent.value == (old(selectedAgent).value.id, UpdateBody(old(formData)))
      ensures sent.None? ==>
        formData == old(formData) && isEditDialogOpen == old(isEditDialogOpen)
        && isSubmitting == old(isSubmitting) && selectedAgent == old(selectedAgent)
      ensures sent.Some? && succeeded ==>
        formData == BlankForm && !isEditDialogOpen && !isSubmitting && selectedAgent.None?
      ensures sent.Some? && !succeeded ==>
        formData == old(formData) && isEditDialogOpen == old(isEditDialogOpen)
        && !isSubmitting && selectedAgent == old(selectedAgent)
    {
      if selectedAgent.None? || formData.name == "" || formData.username == "" {
        return None;
      }
      isSubmitting := true;
      var updateData := BuildUpdateData(formData);
      sent := Some((selectedAgent.value.id, updateData));
      if succeeded {
        CloseEditDialog();
      } else {
        isSubmitting := false;
      }
    }

    /**
     * `handleDeleteAgent`: nothing without a selection; otherwise the selected
     * identifier is sent, a success closes the dialog and clears the
     * selection, and submission ends either way.
     */
    method HandleDeleteAgent(succeeded: bool) returns (sent: Option<string>)
      modifies this`isDeleteDialogOpen, this`isSubmitting, this`selectedAgent
      ensures sent == (if old(selectedAgent).Some? then Some(old(selectedAgent).value.id) else None)
      ensures sent.None? ==>
        isDeleteDialogOpen == old(isDeleteDialogOpen) && isSubmitting == old(isSubmitting) && selectedAgent.None?
      ensures sent.Some? && succeeded ==> !isDeleteDialogOpen && !isSubmitting && selectedAgent.None?
      ensures sent.Some? && !succeeded ==>
        isDeleteDialogOpen == old(isDeleteDialogOpen) && !isSubmitting && selectedAgent == old(selectedAgent)
    {
      if selectedAgent.None? {
        return None;
      }
      isSubmitting := true;
      sent := Some(selectedAgent.value.id);
      if succeeded {
        isDeleteDialogOpen := false;
        selectedAgent := None;
      }
      isSubmitting := false;
    }
  }

  /** Membership in the filtered list, for every agent at once. */
  lemma FilteredMembershipAll(agents: seq<Agent>, search: string)
    ensures forall a :: a in Filtered(agents, search) <==> a in agents && Matches(a, search)
  {
    forall a {
      FilteredMembership(agents, search, a);
    }
  }

  /** Opening, editing nothing and submitting a successful edit ends with a blank form and no selection. */
  method EditRoundTrip(page: AgentsPage, agent: Agent) returns (sent: Option<(string, map<string, Value>)>)
    requires agent.name != "" && agent.username != ""
    modifies page`selectedAgent, page`formData, page`isEditDialogOpen, page`isSubmitting
    ensures sent == Some((agent.id, UpdateBody(EditForm(agent))))
    ensures "password" !in sent.value.1
    ensures page.formData == BlankForm && page.selectedAgent.None? && !page.isEditDialogOpen && !page.isSubmitting
  {
    page.OpenEditDialog(agent);
    sent := page.HandleEditAgent(true);
    UntouchedEditKeepsPassword(agent);
  }
}
