/** The paginated, editable user list (src/pages/UsersListPage.jsx). Each
    remote call is replaced by its outcome; each handler is one atomic step. */
module UsersList {
  import opened Options
  import opened Auth
  import Routing

  /** A record as the listing endpoint returns it. */
  datatype User = User(id: int, firstName: string, lastName: string, email: string, avatar: string)

  /** The three editable fields held while a card is in edit mode. */
  datatype EditBuffer = EditBuffer(firstName: string, lastName: string, email: string)

  /** Success or failure of an update or delete request. */
  datatype Outcome = Succeeded | Failed

  /** Outcome of the listing request: `data` and `total_pages`, or any failure. */
  datatype FetchResult = FetchOk(data: seq<User>, totalPages: int) | FetchError

  /** The component's state; `navigation` is the last redirect it requested. */
  datatype ListState = ListState(
    users: seq<User>,
    page: int,
    totalPages: int,
    editingUser: Option<int>,
    editedData: EditBuffer,
    navigation: Option<string>)

  const EMPTY_BUFFER := EditBuffer("", "", "")

  /** The state on mount. */
  const INITIAL := ListState([], 1, 1, None, EMPTY_BUFFER, None)

  /** `user.id === editingUser`: never true while nobody is being edited. */
  predicate IsTarget(u: User, target: Option<int>) {
    target == Some(u.id)
  }

  /** Whether the card at index `i` shows its edit inputs. */
  predicate InEditMode(s: ListState, i: int)
    requires 0 <= i < |s.users|
  {
    IsTarget(s.users[i], s.editingUser)
  }

  predicate UniqueIds(users: seq<User>) {
    forall i, j :: 0 <= i < j < |users| ==> users[i].id != users[j].id
  }

  function WithEdits(u: User, data: EditBuffer): User {
    u.(firstName := data.firstName, lastName := data.lastName, email := data.email)
  }

  // ---------------------------------------------------------------------------
  // The two list rewrites

  /** `users.map(user => user.id === editingUser ? { ...user, ...editedData } : user)`. */
  function MergeEdits(users: seq<User>, target: Option<int>, data: EditBuffer): (r: seq<User>)
    ensures |r| == |users|
    ensures forall i :: 0 <= i < |users| && IsTarget(users[i], target) ==>
              && r[i].id == users[i].id && r[i].avatar == users[i].avatar
              && r[i].firstName == data.firstName && r[i].lastName == data.lastName
              && r[i].email == data.email
    ensures forall i :: 0 <= i < |users| && !IsTarget(users[i], target) ==> r[i] == users[i]
  {
    if users == [] then []
    else
      [if IsTarget(users[0], target) then WithEdits(users[0], data) else users[0]]
      + MergeEdits(users[1..], target, data)
  }

  /** `users.filter(user => user.id !== id)`. */
  function RemoveById(users: seq<User>, id: int): (r: seq<User>)
    ensures forall u :: multiset(r)[u] == if u.id == id then 0 else multiset(users)[u]
    ensures forall u :: u in r <==> u in users && u.id != id
    ensures (forall i :: 0 <= i < |users| ==> users[i].id != id) ==> r == users
    ensures |r| <= |users|
  {
    if users == [] then []
    else
      assert users == [users[0]] + users[1..];
      if users[0].id == id then RemoveById(users[1..], id)
      else [users[0]] + RemoveById(users[1..], id)
  }

  /** Removal keeps the survivors in their original order: it distributes over
      concatenation, so each record's position relative to the others is kept. */
  lemma {:induction false} RemoveByIdOverConcat(a: seq<User>, b: seq<User>, id: int)
    ensures RemoveById(a + b, id) == RemoveById(a, id) + RemoveById(b, id)
  {
    if a == [] {
      assert a + b == b;
    } else {
      assert (a + b)[0] == a[0] && (a + b)[1..] == a[1..] + b;
      RemoveByIdOverConcat(a[1..], b, id);
    }
  }

  /** Merging the same edits a second time changes nothing. */
  lemma MergeEditsIdempotent(users: seq<User>, target: Option<int>, data: EditBuffer)
    ensures MergeEdits(MergeEdits(users, target, data), target, data) == MergeEdits(users, target, data)
  {
  }

  lemma MergeEditsKeepsUniqueIds(users: seq<User>, target: Option<int>, data: EditBuffer)
    requires UniqueIds(users)
    ensures UniqueIds(MergeEdits(users, target, data))
  {
  }

  lemma {:induction false} RemoveByIdKeepsUniqueIds(users: seq<User>, id: int)
    requires UniqueIds(users)
    ensures UniqueIds(RemoveById(users, id))
  {
    if users != [] {
      var rest := users[1..];
      assert UniqueIds(rest);
      RemoveByIdKeepsUniqueIds(rest, id);
      var r := RemoveById(rest, id);
      if users[0].id != id {
        forall j | 0 <= j < |r| ensures r[j].id != users[0].id {
          assert r[j] in rest;
          var k :| 0 <= k < |rest| && rest[k] == r[j];
          assert users[k + 1] == r[j];
        }
        assert RemoveById(users, id) == [users[0]] + r;
      }
    }
  }

  // ---------------------------------------------------------------------------
  // The handlers, as transitions of ListState

  /** Page requested by the fetch effect: the current page, and only with a token. */
  function RequestedPage(s: ListState, token: Token): (r: Option<int>)
    ensures r.Some? <==> IsPresent(token)
    ensures r.Some? ==> r.value == s.page
  {
    if IsPresent(token) then Some(s.page) else None
  }

  /** The effect run on mount and whenever `page` or `token` changes: without a
      token it redirects to the login path; with one it applies `fetchUsers`. */
  function EffectRan(s: ListState, token: Token, result: FetchResult): (t: ListState)
    ensures !IsPresent(token) ==> t.navigation == Some(Routing.LOGIN_PATH) && t.users == s.users
    ensures IsPresent(token) && result.FetchOk? ==>
              t.users == result.data && t.totalPages == result.totalPages && t.navigation == s.navigation
    ensures IsPresent(token) && result.FetchError? ==> t == s
    ensures t.page == s.page && t.editingUser == s.editingUser && t.editedData == s.editedData
    ensures !(IsPresent(token) && result.FetchOk?) ==> t.totalPages == s.totalPages
  {
    if !IsPresent(token) then s.(navigation := Some(Routing.LOGIN_PATH))
    else match result
      case FetchOk(data, total) => s.(users := data, totalPages := total)
      case FetchError => s
  }

  /** `handleEditClick(user)`. */
  function EditStarted(s: ListState, u: User): (t: ListState)
    ensures t.editingUser == Some(u.id)
    ensures t.editedData == EditBuffer(u.firstName, u.lastName, u.email)
    ensures t.users == s.users && t.page == s.page && t.totalPages == s.totalPages
    ensures t.navigation == s.navigation
  {
    s.(editingUser := Some(u.id), editedData := EditBuffer(u.firstName, u.lastName, u.email))
  }

  /** The first-name input's change handler. */
  function FirstNameTyped(s: ListState, value: string): (t: ListState)
    ensures t.editedData.firstName == value
    ensures t.editedData.lastName == s.editedData.lastName && t.editedData.email == s.editedData.email
    ensures t == s.(editedData := t.editedData)
  {
    s.(editedData := s.editedData.(firstName := value))
  }

  /** The last-name input's change handler. */
  function LastNameTyped(s: ListState, value: string): (t: ListState)
    ensures t.editedData.lastName == value
    ensures t.editedData.firstName == s.editedData.firstName && t.editedData.email == s.editedData.email
    ensures t == s.(editedData := t.editedData)
  {
    s.(editedData := s.editedData.(lastName := value))
  }

  /** The email input's change handler. */
  function EmailTyped(s: ListState, value: string): (t: ListState)
    ensures t.editedData.email == value
    ensures t.editedData.firstName == s.editedData.firstName && t.editedData.lastName == s.editedData.lastName
    ensures t == s.(editedData := t.editedData)
  {
    s.(editedData := s.editedData.(email := value))
  }

  /** The Cancel button: leaves edit mode and keeps the buffer as it was. */
  function EditCancelled(s: ListState): (t: ListState)
    ensures t.editingUser == None
    ensures forall i :: 0 <= i < |t.users| ==> !InEditMode(t, i)
    ensures t.users == s.users && t.editedData == s.editedData
    ensures t.page == s.page && t.totalPages == s.totalPages && t.navigation == s.navigation
  {
    s.(editingUser := None)
  }

  /** `handleUpdate` once the update request has succeeded or failed. */
  function UpdateFinished(s: ListState, outcome: Outcome): (t: ListState)
    ensures outcome == Failed ==> t == s
    ensures outcome == Succeeded ==>
              && |t.users| == |s.users|
              && t.editingUser == None
              && t.editedData == s.editedData
              && t.page == s.page && t.totalPages == s.totalPages && t.navigation == s.navigation
    ensures outcome == Succeeded ==>
              forall i :: 0 <= i < |s.users| && InEditMode(s, i) ==>
                t.users[i] == s.users[i].(firstName := s.editedData.firstName,
                                          lastName := s.editedData.lastName,
                                          email := s.editedData.email)
    ensures outcome == Succeeded ==>
              forall i :: 0 <= i < |s.users| && !InEditMode(s, i) ==> t.users[i] == s.users[i]
  {
    if outcome == Succeeded then
      s.(users := MergeEdits(s.users, s.editingUser, s.editedData), editingUser := None)
    else
      s
  }

  /** `handleDelete(id)` once the delete request has succeeded or failed. */
  function DeleteFinished(s: ListState, id: int, outcome: Outcome): (t: ListState)
    ensures outcome == Failed ==> t == s
    ensures outcome == Succeeded ==>
              forall u :: u in t.users <==> u in s.users && u.id != id
    ensures outcome == Succeeded ==> t.users == RemoveById(s.users, id)
    ensures outcome == Succeeded ==> t == s.(users := t.users)
  {
    if outcome == Succeeded then s.(users := RemoveById(s.users, id)) else s
  }

  /** `disabled={page === 1}` on the Previous button, negated. */
  predicate PreviousEnabled(s: ListState)
    ensures s.page >= 1 ==> (PreviousEnabled(s) <==> s.page > 1)
  {
    s.page != 1
  }

  /** `disabled={page === totalPages}` on the Next button, negated. */
  predicate NextEnabled(s: ListState)
    ensures s.page <= s.totalPages ==> (NextEnabled(s) <==> s.page < s.totalPages)
    ensures s.page > s.totalPages ==> NextEnabled(s)
  {
    s.page != s.totalPages
  }

  /** A click on Previous; a disabled button does nothing. */
  function MovedPrevious(s: ListState): (t: ListState)
    ensures PreviousEnabled(s) ==> t.page == s.page - 1
    ensures !PreviousEnabled(s) ==> t == s
    ensures t == s.(page := t.page)
    ensures s.page >= 1 ==> t.page >= 1
  {
    if PreviousEnabled(s) then s.(page := s.page - 1) else s
  }

  /** A click on Next; a disabled button does nothing. The guard is an
      inequality test, so a page already past `totalPages` can keep growing. */
  function MovedNext(s: ListState): (t: ListState)
    ensures NextEnabled(s) ==> t.page == s.page + 1
    ensures !NextEnabled(s) ==> t == s
    ensures t == s.(page := t.page)
    ensures s.page >= 1 ==> t.page >= 1
    ensures 1 <= s.page <= s.totalPages ==> 1 <= t.page <= s.totalPages
    ensures s.page > s.totalPages ==> NextEnabled(s) && t.page == s.page + 1
  {
    if NextEnabled(s) then s.(page := s.page + 1) else s
  }

  /** Previous undoes an enabled Next. */
  lemma PreviousUndoesNext(s: ListState)
    requires s.page >= 1 && NextEnabled(s)
    ensures PreviousEnabled(MovedNext(s))
    ensures MovedPrevious(MovedNext(s)) == s
  {
  }

  /** With unique ids, at most one card is in edit mode. */
  lemma AtMostOneCardInEditMode(s: ListState, i: int, j: int)
    requires UniqueIds(s.users)
    requires 0 <= i < |s.users| && 0 <= j < |s.users|
    requires InEditMode(s, i) && InEditMode(s, j)
    ensures i == j
  {
  }

  /** Clicking Edit on a card puts exactly that card in edit mode. */
  lemma EditClickSelectsCard(s: ListState, k: int)
    requires UniqueIds(s.users) && 0 <= k < |s.users|
    ensures forall i :: 0 <= i < |s.users| ==> (InEditMode(EditStarted(s, s.users[k]), i) <==> i == k)
  {
  }

  // ---------------------------------------------------------------------------
  // Sequences of events

  datatype Event =
    | Effect(token: Token, result: FetchResult)
    | EditClick(user: User)
    | FirstNameInput(value: string)
    | LastNameInput(value: string)
    | EmailInput(value: string)
    | CancelClick
    | SaveClick(outcome: Outcome)
    | DeleteClick(id: int, outcome: Outcome)
    | PreviousClick
    | NextClick

  function Step(s: ListState, e: Event): ListState {
    match e
    case Effect(token, result) => EffectRan(s, token, result)
    case EditClick(u) => EditStarted(s, u)
    case FirstNameInput(v) => FirstNameTyped(s, v)
    case LastNameInput(v) => LastNameTyped(s, v)
    case EmailInput(v) => EmailTyped(s, v)
    case CancelClick => EditCancelled(s)
    case SaveClick(outcome) => UpdateFinished(s, outcome)
    case DeleteClick(id, outcome) => DeleteFinished(s, id, outcome)
    case PreviousClick => MovedPrevious(s)
    case NextClick => MovedNext(s)
  }

  function Run(s: ListState, events: seq<Event>): ListState
    decreases |events|
  {
    if events == [] then s else Run(Step(s, events[0]), events[1..])
  }

  /** A fetch event whose payload the server sent with distinct ids. */
  predicate ServerIdsUnique(e: Event) {
    e.Effect? && e.result.FetchOk? ==> UniqueIds(e.result.data)
  }

  /** Starting from a page of at least 1 (as on mount), every sequence of
      events keeps the page at least 1. */
  lemma {:induction false} RunKeepsPageAtLeastOne(s: ListState, events: seq<Event>)
    requires s.page >= 1
    ensures Run(s, events).page >= 1
    decreases |events|
  {
    if events != [] {
      RunKeepsPageAtLeastOne(Step(s, events[0]), events[1..]);
    }
  }

  lemma StepKeepsUniqueIds(s: ListState, e: Event)
    requires UniqueIds(s.users) && ServerIdsUnique(e)
    ensures UniqueIds(Step(s, e).users)
  {
    match e {
      case SaveClick(outcome) => MergeEditsKeepsUniqueIds(s.users, s.editingUser, s.editedData);
      case DeleteClick(id, outcome) => RemoveByIdKeepsUniqueIds(s.users, id);
      case _ =>
    }
  }

  /** As long as the server sends distinct ids, the list keeps distinct ids,
      so at most one card is ever in edit mode. */
  lemma {:induction false} RunKeepsUniqueIds(s: ListState, events: seq<Event>)
    requires UniqueIds(s.users)
    requires forall k :: 0 <= k < |events| ==> ServerIdsUnique(events[k])
    ensures UniqueIds(Run(s, events).users)
    decreases |events|
  {
    if events != [] {
      assert ServerIdsUnique(events[0]);
      StepKeepsUniqueIds(s, events[0]);
      assert forall k :: 0 <= k < |events[1..]| ==> ServerIdsUnique(events[1..][k]) by {
        forall k | 0 <= k < |events[1..]| ensures ServerIdsUnique(events[1..][k]) {
          assert events[1..][k] == events[k + 1];
        }
      }
      RunKeepsUniqueIds(Step(s, events[0]), events[1..]);
    }
  }

  predicate IsPageMove(e: Event) {
    e.PreviousClick? || e.NextClick?
  }

  /** Page moves change only the page: list, edit mode and buffer stay as
      they are until the next fetch result arrives. */
  lemma {:induction false} PageMovesChangeOnlyPage(s: ListState, events: seq<Event>)
    requires forall k :: 0 <= k < |events| ==> IsPageMove(events[k])
    ensures Run(s, events) == s.(page := Run(s, events).page)
    decreases |events|
  {
    if events != [] {
      assert IsPageMove(events[0]);
      PageMovesChangeOnlyPage(Step(s, events[0]), events[1..]);
    }
  }

  /** Edit a card, retype its first name and save successfully: that card
      shows the new first name, leaves edit mode, and no other card changes. */
  lemma EditThenSave(s: ListState, k: int, value: string)
    requires UniqueIds(s.users) && 0 <= k < |s.users|
    ensures var t := Run(s, [EditClick(s.users[k]), FirstNameInput(value), SaveClick(Succeeded)]);
            && t.editingUser == None
            && |t.users| == |s.users|
            && t.users[k] == s.users[k].(firstName := value)
            && forall i :: 0 <= i < |s.users| && i != k ==> t.users[i] == s.users[i]
  {
    var events := [EditClick(s.users[k]), FirstNameInput(value), SaveClick(Succeeded)];
    var s1 := EditStarted(s, s.users[k]);
    var s2 := FirstNameTyped(s1, value);
    var s3 := UpdateFinished(s2, Succeeded);
    assert events[1..] == [FirstNameInput(value), SaveClick(Succeeded)];
    assert events[1..][1..] == [SaveClick(Succeeded)];
    assert events[1..][1..][1..] == [];
    assert Run(s2, events[1..][1..]) == Run(s3, []);
    assert Run(s1, events[1..]) == Run(s2, events[1..][1..]);
    assert Run(s, events) == Run(s1, events[1..]);
    EditClickSelectsCard(s, k);
  }

  // ---------------------------------------------------------------------------
  // The component

  class UsersListPage {
    var users: seq<User>
    var page: int
    var totalPages: int
    var editingUser: Option<int>
    var editedData: EditBuffer
    var navigation: Option<string>
    const auth: AuthSession

    function State(): ListState
      reads this
    {
      ListState(users, page, totalPages, editingUser, editedData, navigation)
    }

    /** The page index never drops below 1. */
    ghost predicate Valid()
      reads this
    {
      page >= 1
    }

    constructor (auth: AuthSession)
      ensures Valid() && this.auth == auth
      ensures State() == INITIAL
    {
      this.auth := auth;
      users := [];
      page := 1;
      totalPages := 1;
      editingUser := None;
      editedData := EMPTY_BUFFER;
      navigation := None;
    }

    /** The `useEffect` body together with `fetchUsers(page)`; `result` is
        what the listing request for `requested` returned. */
    method FetchUsersEffect(result: FetchResult) returns (requested: Option<int>)
      requires Valid()
      modifies this
      ensures Valid()
      ensures requested == RequestedPage(old(State()), auth.token)
      ensures State() == EffectRan(old(State()), auth.token, result)
    {
      if !IsPresent(auth.token) {
        navigation := Some(Routing.LOGIN_PATH);
        return None;
      }
      requested := Some(page);
      match result
      case FetchOk(data, total) =>
        users := data;
        totalPages := total;
      case FetchError =>
    }

    method HandleEditClick(u: User)
      requires Valid()
      modifies this
      ensures Valid()
      ensures State() == EditStarted(old(State()), u)
    {
      editingUser := Some(u.id);
      editedData := EditBuffer(u.firstName, u.lastName, u.email);
    }

    method ChangeFirstName(value: string)
      requires Valid()
      modifies this
      ensures Valid()
      ensures State() == FirstNameTyped(old(State()), value)
    {
      editedData := editedData.(firstName := value);
    }

    method ChangeLastName(value: string)
      requires Valid()
      modifies this
      ensures Valid()
      ensures State() == LastNameTyped(old(State()), value)
    {
      editedData := editedData.(lastName := value);
    }

    method ChangeEmail(value: string)
      requires Valid()
      modifies this
      ensures Valid()
      ensures State() == EmailTyped(old(State()), value)
    {
      editedData := editedData.(email := value);
    }

    method Cancel()
      requires Valid()
      modifies this
      ensures Valid()
      ensures State() == EditCancelled(old(State()))
    {
      editingUser := None;
    }

    /** `handleUpdate`, with the update request replaced by its outcome. */
    method HandleUpdate(outcome: Outcome)
      requires Valid()
      modifies this
      ensures Valid()
      ensures State() == UpdateFinished(old(State()), outcome)
    {
      if outcome == Succeeded {
        users := MergeEdits(users, editingUser, editedData);
        editingUser := None;
      }
    }

    /** `handleDelete(id)`, with the delete request replaced by its outcome. */
    method HandleDelete(id: int, outcome: Outcome)
      requires Valid()
      modifies this
      ensures Valid()
      ensures State() == DeleteFinished(old(State()), id, outcome)
    {
      if outcome == Succeeded {
        users := RemoveById(users, id);
      }
    }

    method Previous()
      requires Valid()
      modifies this
      ensures Valid()
      ensures State() == MovedPrevious(old(State()))
    {
      if page != 1 {
        page := page - 1;
      }
    }

    method Next()
      requires Valid()
      modifies this
      ensures Valid()
      ensures State() == MovedNext(old(State()))
    {
      if page != totalPages {
        page := page + 1;
      }
    }

    /** The Logout button: clears the session token, nothing on the page. */
    method Logout()
      modifies auth
      ensures auth.token == None
      ensures State() == old(State())
    {
      auth.Logout();
    }
  }
}
