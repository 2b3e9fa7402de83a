/**
 * The write handlers of the tool-request controller as transitions of the
 * store: each gives the response and the store it leaves behind. The boolean
 * parameters say whether the store reports an error on the handler's lookup
 * or on its save.
 */
module ToolRequestWrites {
  import opened Options
  import opened RequestStates
  import opened Requests
  import opened Responses

  /** The request `create` inserts, carrying the code it was created with. */
  function NewRequest(id: RequestId, user: UserId, tool: ToolId, code: Code): ToolRequest {
    ToolRequest(id, user, tool, PENDING, Some(code))
  }

  /** The request `create` inserts as written: only user and tool are set, so no code is stored. */
  function NewRequestAsWritten(id: RequestId, user: UserId, tool: ToolId): ToolRequest {
    ToolRequest(id, user, tool, PENDING, None)
  }

  /** What `create` may be called with: the inventory lookup is dereferenced unchecked once it is reached. */
  predicate CreateCallable(s: seq<ToolRequest>, principal: Option<UserId>, code: Code, inventory: map<Code, ToolId>,
                           lookupFails: bool) {
    principal.None? || lookupFails || CodeTaken(s, code) || code in inventory
  }

  /**
   * `create`: refuse a code some stored request already has, otherwise insert
   * one pending request of the caller for the inventory item of that code.
   */
  function CreateOutcome(s: seq<ToolRequest>, principal: Option<UserId>, code: Code, inventory: map<Code, ToolId>,
                         lookupFails: bool, saveFails: bool): (o: Outcome)
    requires CreateCallable(s, principal, code, inventory, lookupFails)
    ensures o.response.code == OK <==> principal.Some? && !lookupFails && !CodeTaken(s, code) && !saveFails
    ensures o.response.code != OK ==> o.store == s
    ensures principal.None? ==> o.response == Response(UNAUTHORIZED, Text(UnauthorizedText))
    ensures principal.Some? && !lookupFails && CodeTaken(s, code) ==> o.response == Response(CONFLICT, Text(DuplicateText))
    ensures principal.Some? && (lookupFails || (!CodeTaken(s, code) && saveFails)) ==>
      o.response == Response(INTERNAL_ERROR, Text(IssueText))
    ensures o.response.code == OK ==>
      && o.response.body == Text(CreatedText)
      && |o.store| == |s| + 1 && o.store[..|s|] == s
      && var added := o.store[|s|];
      && added.user == principal.value && added.tool == inventory[code] && added.status == PENDING
      && added.code == Some(code)
      && forall x :: x in s ==> x.id != added.id
  {
    match principal
    case None => Outcome(Response(UNAUTHORIZED, Text(UnauthorizedText)), s)
    case Some(u) =>
      if lookupFails then Outcome(Response(INTERNAL_ERROR, Text(IssueText)), s)
      else if CodeTaken(s, code) then Outcome(Response(CONFLICT, Text(DuplicateText)), s)
      else if saveFails then Outcome(Response(INTERNAL_ERROR, Text(IssueText)), s)
      else Outcome(Response(OK, Text(CreatedText)), s + [NewRequest(NextId(s), u, inventory[code], code)])
  }

  /** `create` exactly as written: the inserted request has no code. */
  function CreateOutcomeAsWritten(s: seq<ToolRequest>, principal: Option<UserId>, code: Code,
                                  inventory: map<Code, ToolId>, lookupFails: bool, saveFails: bool): (o: Outcome)
    requires CreateCallable(s, principal, code, inventory, lookupFails)
    ensures o.response.code == OK <==> principal.Some? && !lookupFails && !CodeTaken(s, code) && !saveFails
    ensures o.response.code != OK ==> o.store == s
    ensures principal.None? ==> o.response == Response(UNAUTHORIZED, Text(UnauthorizedText))
    ensures principal.Some? && !lookupFails && CodeTaken(s, code) ==> o.response == Response(CONFLICT, Text(DuplicateText))
    ensures principal.Some? && (lookupFails || (!CodeTaken(s, code) && saveFails)) ==>
      o.response == Response(INTERNAL_ERROR, Text(IssueText))
    ensures o.response.code == OK ==>
      && o.response.body == Text(CreatedText)
      && |o.store| == |s| + 1 && o.store[..|s|] == s
      && var added := o.store[|s|];
      && added.user == principal.value && added.tool == inventory[code] && added.status == PENDING
      && added.code == None
      && forall x :: x in s ==> x.id != added.id
  {
    match principal
    case None => Outcome(Response(UNAUTHORIZED, Text(UnauthorizedText)), s)
    case Some(u) =>
      if lookupFails then Outcome(Response(INTERNAL_ERROR, Text(IssueText)), s)
      else if CodeTaken(s, code) then Outcome(Response(CONFLICT, Text(DuplicateText)), s)
      else if saveFails then Outcome(Response(INTERNAL_ERROR, Text(IssueText)), s)
      else Outcome(Response(OK, Text(CreatedText)), s + [NewRequestAsWritten(NextId(s), u, inventory[code])])
  }

  /**
   * The code as written and the corrected code give the same response and the
   * same store, except that the request the written code adds has no code.
   */
  lemma AsWrittenDiffersOnlyInCode(s: seq<ToolRequest>, principal: Option<UserId>, code: Code,
                                   inventory: map<Code, ToolId>, lookupFails: bool, saveFails: bool)
    requires CreateCallable(s, principal, code, inventory, lookupFails)
    ensures var a := CreateOutcomeAsWritten(s, principal, code, inventory, lookupFails, saveFails);
      var c := CreateOutcome(s, principal, code, inventory, lookupFails, saveFails);
      && a.response == c.response && |a.store| == |c.store|
      && (a.response.code == OK ==> a.store == c.store[|s| := c.store[|s|].(code := None)])
      && (a.response.code != OK ==> a.store == c.store)
  {
  }

  /** No stored request carries a code. */
  predicate NoCodes(s: seq<ToolRequest>) {
    forall i | 0 <= i < |s| :: s[i].code.None?
  }

  /**
   * As written, a store whose requests all came from `create` never holds a
   * code, so the duplicate check never answers 409.
   */
  lemma AsWrittenNeverConflicts(s: seq<ToolRequest>, principal: Option<UserId>, code: Code,
                                inventory: map<Code, ToolId>, lookupFails: bool, saveFails: bool)
    requires NoCodes(s)
    requires CreateCallable(s, principal, code, inventory, lookupFails)
    ensures var o := CreateOutcomeAsWritten(s, principal, code, inventory, lookupFails, saveFails);
      o.response.code != CONFLICT && NoCodes(o.store)
  {
    var o := CreateOutcomeAsWritten(s, principal, code, inventory, lookupFails, saveFails);
    assert !CodeTaken(s, code);
    if o.response.code == OK {
      forall i | 0 <= i < |o.store| ensures o.store[i].code.None? {
        if i < |s| {
          assert o.store[i] == o.store[..|s|][i];
        }
      }
    }
  }

  /** As written, the same code is accepted twice in a row on an empty store. */
  lemma AsWrittenAcceptsDuplicate()
    ensures var inventory := map["HAMMER-7" := 42];
      var first := CreateOutcomeAsWritten([], Some(1), "HAMMER-7", inventory, false, false);
      var second := CreateOutcomeAsWritten(first.store, Some(1), "HAMMER-7", inventory, false, false);
      first.response.code == OK && second.response.code == OK && |second.store| == 2
  {
    var inventory := map["HAMMER-7" := 42];
    var first := CreateOutcomeAsWritten([], Some(1), "HAMMER-7", inventory, false, false);
    AsWrittenNeverConflicts([], Some(1), "HAMMER-7", inventory, false, false);
    assert !CodeTaken(first.store, "HAMMER-7");
  }

  /**
   * With the code stored, a second `create` of a code that succeeded once is
   * refused with 409 and leaves the store as the first one left it, whoever asks.
   */
  lemma CreateTwiceConflicts(s: seq<ToolRequest>, u: UserId, u': UserId, code: Code, inventory: map<Code, ToolId>,
                             saveFails: bool)
    requires CreateCallable(s, Some(u), code, inventory, false)
    requires CreateOutcome(s, Some(u), code, inventory, false, false).response.code == OK
    ensures var first := CreateOutcome(s, Some(u), code, inventory, false, false);
      CreateCallable(first.store, Some(u'), code, inventory, false)
      && CreateOutcome(first.store, Some(u'), code, inventory, false, saveFails)
         == Outcome(Response(CONFLICT, Text(DuplicateText)), first.store)
  {
    var first := CreateOutcome(s, Some(u), code, inventory, false, false);
    assert first.store == s + [first.store[|s|]];
    CodeTakenSnoc(s, first.store[|s|], code);
  }

  /** `create` keeps request ids distinct. */
  lemma CreateKeepsIdsDistinct(s: seq<ToolRequest>, principal: Option<UserId>, code: Code,
                               inventory: map<Code, ToolId>, lookupFails: bool, saveFails: bool)
    requires IdsDistinct(s)
    requires CreateCallable(s, principal, code, inventory, lookupFails)
    ensures IdsDistinct(CreateOutcome(s, principal, code, inventory, lookupFails, saveFails).store)
  {
    var o := CreateOutcome(s, principal, code, inventory, lookupFails, saveFails);
    if o.response.code == OK {
      forall i, j | 0 <= i < j < |o.store| ensures o.store[i].id != o.store[j].id {
        assert o.store[i] == s[i] by { assert o.store[i] == o.store[..|s|][i]; }
        if j < |s| {
          assert o.store[j] == o.store[..|s|][j];
        } else {
          assert s[i] in s;
        }
      }
    }
  }

  /**
   * `update`: overwrite user, tool and status of the request with id `id`,
   * or answer 500 when there is none.
   */
  function UpdateOutcome(s: seq<ToolRequest>, id: RequestId, user: UserId, tool: ToolId, status: int,
                         lookupFails: bool, saveFails: bool): (o: Outcome)
    ensures o.response.code == OK <==> !lookupFails && FindById(s, id).Some? && !saveFails
    ensures o.response.code != OK ==> o.store == s && o.response.code == INTERNAL_ERROR
    ensures !lookupFails && FindById(s, id).None? ==> o.response.body == Text(MissingText)
    ensures (lookupFails || FindById(s, id).Some?) && o.response.code != OK ==> o.response.body == Text(IssueText)
    ensures o.response.code == OK ==>
      && o.response.body == Text(UpdatedText)
      && |o.store| == |s|
      && var i := FindById(s, id).value;
      && o.store[i] == ToolRequest(id, user, tool, status, s[i].code)
      && forall j :: 0 <= j < |s| && j != i ==> o.store[j] == s[j]
  {
    if lookupFails then Outcome(Response(INTERNAL_ERROR, Text(IssueText)), s)
    else
      match FindById(s, id)
      case None => Outcome(Response(INTERNAL_ERROR, Text(MissingText)), s)
      case Some(i) =>
        if saveFails then Outcome(Response(INTERNAL_ERROR, Text(IssueText)), s)
        else Outcome(Response(OK, Text(UpdatedText)), s[i := s[i].(user := user, tool := tool, status := status)])
  }

  /**
   * `changeStatus`: overwrite the status of the request with id `id`, or
   * answer 500 when there is none.
   */
  function ChangeStatusOutcome(s: seq<ToolRequest>, id: RequestId, status: int,
                               lookupFails: bool, saveFails: bool): (o: Outcome)
    ensures o.response.code == OK <==> !lookupFails && FindById(s, id).Some? && !saveFails
    ensures o.response.code != OK ==> o.store == s && o.response.code == INTERNAL_ERROR
    ensures !lookupFails && FindById(s, id).None? ==> o.response.body == Text(MissingText)
    ensures (lookupFails || FindById(s, id).Some?) && o.response.code != OK ==> o.response.body == Text(IssueText)
    ensures o.response.code == OK ==>
      && o.response.body == Text(StatusUpdatedText)
      && |o.store| == |s|
      && var i := FindById(s, id).value;
      && o.store[i] == s[i].(status := status)
      && forall j :: 0 <= j < |s| && j != i ==> o.store[j] == s[j]
  {
    if lookupFails then Outcome(Response(INTERNAL_ERROR, Text(IssueText)), s)
    else
      match FindById(s, id)
      case None => Outcome(Response(INTERNAL_ERROR, Text(MissingText)), s)
      case Some(i) =>
        if saveFails then Outcome(Response(INTERNAL_ERROR, Text(IssueText)), s)
        else Outcome(Response(OK, Text(StatusUpdatedText)), s[i := s[i].(status := status)])
  }

  /** Two stores with the same ids at the same positions. */
  ghost predicate SameIds(s: seq<ToolRequest>, t: seq<ToolRequest>) {
    |s| == |t| && forall j :: 0 <= j < |s| ==> s[j].id == t[j].id
  }

  /** The lookup by id reads nothing but the ids. */
  lemma {:induction false} FindByIdSameIds(s: seq<ToolRequest>, t: seq<ToolRequest>, id: RequestId)
    requires SameIds(s, t)
    ensures FindById(s, id) == FindById(t, id)
    decreases |s|
  {
    if s != [] && s[0].id != id {
      assert SameIds(s[1..], t[1..]) by {
        forall j | 0 <= j < |s[1..]| ensures s[1..][j].id == t[1..][j].id {
          assert s[1..][j] == s[j + 1] && t[1..][j] == t[j + 1];
        }
      }
      FindByIdSameIds(s[1..], t[1..], id);
    }
  }

  /**
   * On a store with distinct ids, a successful `update` changes the request
   * with that id in user, tool and status only, and no other request.
   */
  lemma UpdateTouchesOnlyTarget(s: seq<ToolRequest>, id: RequestId, user: UserId, tool: ToolId, status: int,
                                lookupFails: bool, saveFails: bool)
    requires IdsDistinct(s)
    ensures var o := UpdateOutcome(s, id, user, tool, status, lookupFails, saveFails);
      && |o.store| == |s|
      && SameIds(s, o.store) && IdsDistinct(o.store)
      && forall j :: 0 <= j < |s| ==>
           o.store[j] == (if s[j].id == id && o.response.code == OK
                          then s[j].(user := user, tool := tool, status := status) else s[j])
  {
  }

  /**
   * On a store with distinct ids, a successful `changeStatus` changes only the
   * status of the request with that id.
   */
  lemma ChangeStatusTouchesOnlyTarget(s: seq<ToolRequest>, id: RequestId, status: int,
                                      lookupFails: bool, saveFails: bool)
    requires IdsDistinct(s)
    ensures var o := ChangeStatusOutcome(s, id, status, lookupFails, saveFails);
      && SameIds(s, o.store) && IdsDistinct(o.store)
      && forall j :: 0 <= j < |s| ==>
           o.store[j] == (if s[j].id == id && o.response.code == OK then s[j].(status := status) else s[j])
  {
  }

  /** Setting the same status twice leaves the store as setting it once. */
  lemma ChangeStatusIdempotent(s: seq<ToolRequest>, id: RequestId, status: int)
    ensures var once := ChangeStatusOutcome(s, id, status, false, false);
      var twice := ChangeStatusOutcome(once.store, id, status, false, false);
      twice.store == once.store && twice.response == once.response
  {
    var once := ChangeStatusOutcome(s, id, status, false, false);
    FindByIdSameIds(s, once.store, id);
  }
}
