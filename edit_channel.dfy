/**
 * The channel edit form (client/src/components/EditChannel.jsx).
 *
 * The form stages a new name, a list of users to add and a list of users to
 * remove, and commits them to the hosted channel in three calls: rename, add,
 * remove. The hosted channel is modelled by its name, id, member set, creator
 * and a deleted flag; every call the form makes on it is appended to `calls`,
 * and the calls that throw are given as a parameter.
 */
module EditChannel {
  import opened Common

  const AddDenied: string := "Only the creator can add members."
  const RemoveDenied: string := "You cannot remove others."
  const DeleteDenied: string := "Only the creator can delete the channel."

  /** One call the form makes on the hosted channel object. */
  datatype ChannelCall =
    | Rename(newName: string)
    | AddMembers(ids: seq<UserId>)
    | RemoveMembers(ids: seq<UserId>)
    | Delete

  /** What the user sees after pressing Save or Delete. */
  datatype Outcome =
    | Rejected(alert: string)   // an alert; nothing was sent
    | Failed(at: ChannelCall)   // a call threw; the later calls were skipped
    | Done

  /** How far a sequence of calls got: the calls that took effect, then the one that threw. */
  datatype Execution = Execution(done: seq<ChannelCall>, failure: Option<ChannelCall>)

  /** `channel.data.name || channel.data.id`: a missing (empty) name falls back to the id. */
  function DisplayName(name: string, id: string): string {
    if name != "" then name else id
  }

  /** `ids.some(id => id !== me)`. */
  function HasOther(ids: seq<UserId>, me: UserId): (r: bool)
    ensures r <==> exists i :: 0 <= i < |ids| && ids[i] != me
  {
    if ids == [] then false
    else if ids[0] != me then true
    else
      var rest := HasOther(ids[1..], me);
      assert forall i :: 1 <= i < |ids| ==> ids[i] == ids[1..][i - 1];
      rest
  }

  /**
   * The two guards at the top of `updateChannel`, in their order: a non-creator
   * may not add anyone, and may remove nobody but themselves.
   */
  function Authorize(isCreator: bool, me: UserId, toAdd: seq<UserId>, toRemove: seq<UserId>): (r: Option<string>)
    ensures r == Some(AddDenied) <==> !isCreator && toAdd != []
    ensures r == Some(RemoveDenied) <==>
      !isCreator && toAdd == [] && exists i :: 0 <= i < |toRemove| && toRemove[i] != me
    ensures r == None <==>
      isCreator || (toAdd == [] && forall i :: 0 <= i < |toRemove| ==> toRemove[i] == me)
  {
    if !isCreator && |toAdd| > 0 then Some(AddDenied)
    else if !isCreator && HasOther(toRemove, me) then Some(RemoveDenied)
    else None
  }

  /** Position of a call in the commit order. */
  function Rank(c: ChannelCall): nat {
    match c
    case Rename(_) => 0
    case AddMembers(_) => 1
    case RemoveMembers(_) => 2
    case Delete => 3
  }

  /**
   * The calls `updateChannel` issues once the guards pass, in order. The rename
   * has no check that the new name is non-empty; a non-creator's staged name and
   * staged additions are dropped without an error.
   */
  function Plan(isCreator: bool, staged: string, name: string, id: string,
                toAdd: seq<UserId>, toRemove: seq<UserId>): (p: seq<ChannelCall>)
  {
    (if isCreator && staged != DisplayName(name, id) then [Rename(staged)] else [])
    + (if isCreator && |toAdd| > 0 then [AddMembers(toAdd)] else [])
    + (if |toRemove| > 0 then [RemoveMembers(toRemove)] else [])
  }

  /**
   * A rename is planned iff the creator changed the name; an addition iff the
   * creator staged users to add; a removal iff anyone staged users to remove.
   * A non-creator's plan is at most the removal.
   */
  lemma PlanCalls(isCreator: bool, staged: string, name: string, id: string,
                  toAdd: seq<UserId>, toRemove: seq<UserId>)
    ensures var p := Plan(isCreator, staged, name, id, toAdd, toRemove);
      && (Rename(staged) in p <==> isCreator && staged != DisplayName(name, id))
      && (AddMembers(toAdd) in p <==> isCreator && toAdd != [])
      && (RemoveMembers(toRemove) in p <==> toRemove != [])
      && (!isCreator ==> p == (if toRemove == [] then [] else [RemoveMembers(toRemove)]))
  {
  }

  /** The plan holds nothing but the staged rename, addition and removal, in the order rename, add, remove. */
  lemma PlanOrdered(isCreator: bool, staged: string, name: string, id: string,
                    toAdd: seq<UserId>, toRemove: seq<UserId>)
    ensures var p := Plan(isCreator, staged, name, id, toAdd, toRemove);
      && (forall i :: 0 <= i < |p| ==>
            p[i] == Rename(staged) || p[i] == AddMembers(toAdd) || p[i] == RemoveMembers(toRemove))
      && (forall i, j :: 0 <= i < j < |p| ==> Rank(p[i]) < Rank(p[j]))
  {
    var p := Plan(isCreator, staged, name, id, toAdd, toRemove);
    forall i | 0 <= i < |p|
      ensures p[i] == Rename(staged) || p[i] == AddMembers(toAdd) || p[i] == RemoveMembers(toRemove)
    {
      assert p[i] in p;
    }
  }

  /**
   * Where each call sits in `p`: the rename (if any) first, then the addition
   * (if any), then the removal (if any), and nothing else.
   */
  predicate Laid(p: seq<ChannelCall>, isCreator: bool, staged: string, name: string, id: string,
                 toAdd: seq<UserId>, toRemove: seq<UserId>)
  {
    var n1 := if isCreator && staged != DisplayName(name, id) then 1 else 0;
    var n2 := n1 + (if isCreator && |toAdd| > 0 then 1 else 0);
    && |p| == n2 + (if |toRemove| > 0 then 1 else 0)
    && (n1 == 1 ==> p[0] == Rename(staged))
    && (n2 > n1 ==> p[n1] == AddMembers(toAdd))
    && (|p| > n2 ==> p[n2] == RemoveMembers(toRemove))
  }

  lemma PlanLayout(isCreator: bool, staged: string, name: string, id: string,
                   toAdd: seq<UserId>, toRemove: seq<UserId>)
    ensures Laid(Plan(isCreator, staged, name, id, toAdd, toRemove), isCreator, staged, name, id, toAdd, toRemove)
  {
  }

  /** The calls issued: those that took effect, then the one that threw, if any. */
  function Issued(e: Execution): seq<ChannelCall> {
    e.done + (if e.failure.Some? then [e.failure.value] else [])
  }

  /** No call in `calls` throws. */
  predicate NoneFail(calls: seq<ChannelCall>, failing: set<ChannelCall>) {
    calls == [] || (calls[0] !in failing && NoneFail(calls[1..], failing))
  }

  lemma {:induction false} NoneFailAppend(a: seq<ChannelCall>, b: seq<ChannelCall>, failing: set<ChannelCall>)
    ensures NoneFail(a + b, failing) <==> NoneFail(a, failing) && NoneFail(b, failing)
  {
    if a != [] {
      assert (a + b)[0] == a[0] && (a + b)[1..] == a[1..] + b;
      NoneFailAppend(a[1..], b, failing);
    } else {
      assert a + b == b;
    }
  }

  /**
   * Runs `plan` call by call inside one `try`: the first call in `failing` throws
   * and the rest are skipped.
   */
  function Run(plan: seq<ChannelCall>, failing: set<ChannelCall>): Execution {
    if plan == [] then Execution([], None)
    else if plan[0] in failing then Execution([], Some(plan[0]))
    else
      var rest := Run(plan[1..], failing);
      Execution([plan[0]] + rest.done, rest.failure)
  }

  /**
   * The calls issued are a prefix of the plan; those that took effect did not
   * throw; the run fails iff some planned call throws, at a call that throws,
   * and otherwise every planned call took effect.
   */
  lemma {:induction false} RunStops(plan: seq<ChannelCall>, failing: set<ChannelCall>)
    ensures var e := Run(plan, failing);
      && Issued(e) <= plan
      && NoneFail(e.done, failing)
      && (e.failure == None <==> NoneFail(plan, failing))
      && (e.failure == None ==> e.done == plan)
      && (e.failure.Some? ==> e.failure.value in failing)
  {
    if plan != [] && plan[0] !in failing {
      RunStops(plan[1..], failing);
      var rest := Run(plan[1..], failing);
      assert Issued(Run(plan, failing)) == [plan[0]] + Issued(rest);
      assert plan == [plan[0]] + plan[1..];
    }
  }

  /**
   * The removal is the last call of a plan, so it took effect exactly when the
   * whole plan did and there was something to remove.
   */
  lemma RemovalTookEffect(isCreator: bool, staged: string, name: string, id: string,
                          toAdd: seq<UserId>, toRemove: seq<UserId>, failing: set<ChannelCall>)
    ensures var e := Run(Plan(isCreator, staged, name, id, toAdd, toRemove), failing);
      RemoveMembers(toRemove) in e.done <==> e.failure == None && toRemove != []
  {
    var p := Plan(isCreator, staged, name, id, toAdd, toRemove);
    var e := Run(p, failing);
    RunStops(p, failing);
    PlanCalls(isCreator, staged, name, id, toAdd, toRemove);
    PlanOrdered(isCreator, staged, name, id, toAdd, toRemove);
    if e.failure.Some? {
      assert |Issued(e)| == |e.done| + 1;
      forall i | 0 <= i < |e.done|
        ensures e.done[i] != RemoveMembers(toRemove)
      {
        assert p[i] == e.done[i];
        assert Rank(p[i]) < Rank(p[|p| - 1]);
      }
    }
  }

  /** The member set after one call took effect. */
  function ApplyCall(members: set<UserId>, c: ChannelCall): set<UserId> {
    match c
    case AddMembers(ids) => members + Elems(ids)
    case RemoveMembers(ids) => members - Elems(ids)
    case _ => members
  }

  /** The member set after `calls` took effect, in order. */
  function ApplyMembers(members: set<UserId>, calls: seq<ChannelCall>): set<UserId> {
    if calls == [] then members
    else ApplyCall(ApplyMembers(members, calls[..|calls| - 1]), calls[|calls| - 1])
  }

  /** The channel name after `calls` took effect: the last rename wins. */
  function ApplyName(name: string, calls: seq<ChannelCall>): string {
    if calls == [] then name
    else if calls[|calls| - 1].Rename? then calls[|calls| - 1].newName
    else ApplyName(name, calls[..|calls| - 1])
  }

  /**
   * The last call in `calls` that mentions `x`: Some(true) when it adds `x`,
   * Some(false) when it removes `x`, None when no call mentions `x`.
   */
  function Fate(x: UserId, calls: seq<ChannelCall>): Option<bool> {
    if calls == [] then None
    else
      var c := calls[|calls| - 1];
      if c.AddMembers? && x in c.ids then Some(true)
      else if c.RemoveMembers? && x in c.ids then Some(false)
      else Fate(x, calls[..|calls| - 1])
  }

  /** Membership after a sequence of calls is decided by the last call that mentions the user. */
  lemma {:induction false} MembershipFate(members: set<UserId>, calls: seq<ChannelCall>, x: UserId)
    ensures x in ApplyMembers(members, calls) <==>
      Fate(x, calls) == Some(true) || (Fate(x, calls) == None && x in members)
  {
    if calls != [] {
      MembershipFate(members, calls[..|calls| - 1], x);
    }
  }

  /** Applying the same calls twice gives the same member set as applying them once. */
  lemma ApplyMembersIdempotent(members: set<UserId>, calls: seq<ChannelCall>)
    ensures ApplyMembers(ApplyMembers(members, calls), calls) == ApplyMembers(members, calls)
  {
    var once := ApplyMembers(members, calls);
    forall x
      ensures x in ApplyMembers(once, calls) <==> x in once
    {
      MembershipFate(members, calls, x);
      MembershipFate(once, calls, x);
    }
  }

  /** Applying one more call. */
  lemma ApplyAppend(members: set<UserId>, name: string, calls: seq<ChannelCall>, c: ChannelCall)
    ensures ApplyMembers(members, calls + [c]) == ApplyCall(ApplyMembers(members, calls), c)
    ensures ApplyName(name, calls + [c]) == if c.Rename? then c.newName else ApplyName(name, calls)
  {
    assert (calls + [c])[..|calls + [c]| - 1] == calls;
  }

  /**
   * A plan that ran to the end leaves the staged additions in (creator only)
   * and the staged removals out, and the staged name (when it changed).
   */
  lemma CommittedChannel(isCreator: bool, staged: string, name: string, id: string,
                         toAdd: seq<UserId>, toRemove: seq<UserId>, members: set<UserId>)
    ensures var p := Plan(isCreator, staged, name, id, toAdd, toRemove);
      && ApplyMembers(members, p) == (members + (if isCreator then Elems(toAdd) else {})) - Elems(toRemove)
      && ApplyName(name, p) == (if isCreator && staged != DisplayName(name, id) then staged else name)
  {
    var renamed := isCreator && staged != DisplayName(name, id);
    var r: seq<ChannelCall> := if renamed then [Rename(staged)] else [];
    var a: seq<ChannelCall> := if isCreator && |toAdd| > 0 then [AddMembers(toAdd)] else [];
    var d: seq<ChannelCall> := if |toRemove| > 0 then [RemoveMembers(toRemove)] else [];
    assert Plan(isCreator, staged, name, id, toAdd, toRemove) == r + a + d;
    CommittedSteps(renamed, isCreator, staged, name, toAdd, toRemove, members);
  }

  lemma CommittedSteps(renamed: bool, isCreator: bool, staged: string, name: string,
                       toAdd: seq<UserId>, toRemove: seq<UserId>, members: set<UserId>)
    ensures var p := (if renamed then [Rename(staged)] else [])
                     + (if isCreator && |toAdd| > 0 then [AddMembers(toAdd)] else [])
                     + (if |toRemove| > 0 then [RemoveMembers(toRemove)] else []);
      && ApplyMembers(members, p) == (members + (if isCreator then Elems(toAdd) else {})) - Elems(toRemove)
      && ApplyName(name, p) == (if renamed then staged else name)
  {
    var r: seq<ChannelCall> := if renamed then [Rename(staged)] else [];
    var a: seq<ChannelCall> := if isCreator && |toAdd| > 0 then [AddMembers(toAdd)] else [];
    var d: seq<ChannelCall> := if |toRemove| > 0 then [RemoveMembers(toRemove)] else [];
    if renamed {
      ApplyAppend(members, name, [], Rename(staged));
    }
    assert ApplyMembers(members, r) == members;
    assert ApplyName(name, r) == (if renamed then staged else name);
    if a != [] {
      ApplyAppend(members, name, r, AddMembers(toAdd));
    }
    assert ApplyMembers(members, r + a) == members + (if isCreator then Elems(toAdd) else {});
    assert ApplyName(name, r + a) == ApplyName(name, r);
    if d != [] {
      ApplyAppend(members, name, r + a, RemoveMembers(toRemove));
    }
    assert r + a + d == (r + a) + d;
  }

  /**
   * A non-creator whose edit passes the guards can only leave: the plan is at
   * most their own removal, and afterwards the other members are untouched.
   */
  lemma NonCreatorOnlyLeaves(me: UserId, staged: string, name: string, id: string,
                             toAdd: seq<UserId>, toRemove: seq<UserId>, members: set<UserId>)
    requires Authorize(false, me, toAdd, toRemove) == None
    ensures var p := Plan(false, staged, name, id, toAdd, toRemove);
      && (toRemove != [] ==> p == [RemoveMembers(toRemove)] && ApplyMembers(members, p) == members - {me})
      && (toRemove == [] ==> p == [])
  {
    if toRemove != [] {
      var c := RemoveMembers(toRemove);
      ApplyAppend(members, name, [], c);
      assert [] + [c] == [c];
      assert Elems(toRemove) == {me} by {
        assert toRemove[0] in Elems(toRemove);
      }
    }
  }

  /**
   * Saving an untouched edit of a channel that has no name renames it to the
   * empty name: the staged name starts as `name || ''` but is compared with
   * `name || id`.
   */
  lemma UntouchedUnnamedSaveRenames(id: UserId, toAdd: seq<UserId>, toRemove: seq<UserId>)
    requires id != ""
    ensures Plan(true, "", "", id, toAdd, toRemove)[0] == Rename("")
  {
  }

  /** `prev.filter(id => id !== x)`. */
  function Without(s: seq<UserId>, x: UserId): (r: seq<UserId>)
    ensures x !in r
    ensures forall y :: y != x ==> (y in r <==> y in s)
    ensures |r| <= |s|
    ensures x !in s ==> r == s
  {
    if s == [] then []
    else
      var rest := Without(s[1..], x);
      assert forall y :: y in s <==> y == s[0] || y in s[1..];
      if s[0] == x then rest
      else
        assert x !in s ==> s == [s[0]] + s[1..];
        [s[0]] + rest
  }

  /** The Leave/Cancel and Remove/Undo buttons: drop `x` when staged, otherwise append it. */
  function Toggled(s: seq<UserId>, x: UserId): (r: seq<UserId>)
    ensures x in r <==> x !in s
    ensures forall y :: y != x ==> (y in r <==> y in s)
  {
    if x in s then Without(s, x) else s + [x]
  }

  /** Toggling an id that was not staged, twice, gives back the same list. */
  lemma {:induction false} ToggleTwiceRestores(s: seq<UserId>, x: UserId)
    requires x !in s
    ensures Toggled(Toggled(s, x), x) == s
  {
    WithoutAppended(s, x);
  }

  lemma {:induction false} WithoutAppended(s: seq<UserId>, x: UserId)
    requires x !in s
    ensures Without(s + [x], x) == s
  {
    if s != [] {
      assert (s + [x])[1..] == s[1..] + [x];
      WithoutAppended(s[1..], x);
    }
  }

  /** Toggling twice always gives back the same set of staged ids (an id that was staged moves to the end). */
  lemma ToggleTwiceSameIds(s: seq<UserId>, x: UserId)
    ensures Elems(Toggled(Toggled(s, x), x)) == Elems(s)
  {
  }

  predicate Distinct(s: seq<UserId>) {
    forall i, j :: 0 <= i < j < |s| ==> s[i] != s[j]
  }

  /** The toggles never stage the same id twice. */
  lemma {:induction false} ToggleKeepsDistinct(s: seq<UserId>, x: UserId)
    requires Distinct(s)
    ensures Distinct(Toggled(s, x))
  {
    if x in s {
      WithoutKeepsDistinct(s, x);
    }
  }

  lemma {:induction false} WithoutKeepsDistinct(s: seq<UserId>, x: UserId)
    requires Distinct(s)
    ensures Distinct(Without(s, x))
  {
    if s != [] {
      WithoutKeepsDistinct(s[1..], x);
      assert s[0] !in s[1..];
    }
  }

  /** A non-creator can only ever stage their own id for removal. */
  lemma ToggleSelfOnly(s: seq<UserId>, me: UserId)
    requires forall i :: 0 <= i < |s| ==> s[i] == me
    ensures var r := Toggled(s, me); forall i :: 0 <= i < |r| ==> r[i] == me
  {
    var r := Toggled(s, me);
    forall i | 0 <= i < |r| ensures r[i] == me {
      assert r[i] in r;
    }
  }

  /**
   * The edit form, mounted on one channel for one signed-in user. The channel
   * fields stand for the hosted channel object; the staged fields are the form's
   * state; `isEditing` and `hasActiveChannel` are the parent's state that the
   * form sets.
   */
  class ChannelEditor {
    const me: UserId                 // client.userID
    const id: string                 // channel.data.id
    const creator: Option<UserId>    // channel.data.created_by
    var name: string                 // channel.data.name, "" when missing
    var members: set<UserId>         // the keys of channel.state.members
    var deleted: bool
    var calls: seq<ChannelCall>      // every call made on the channel, in order

    var stagedName: string           // channelName
    var usersToAdd: seq<UserId>
    var usersToRemove: seq<UserId>

    var isEditing: bool
    var hasActiveChannel: bool

    /** The form is opened on the active channel, with nothing staged. */
    constructor (me: UserId, id: string, creator: Option<UserId>, name: string, members: set<UserId>)
      ensures this.me == me && this.id == id && this.creator == creator
      ensures this.name == name && this.members == members && !deleted && calls == []
      ensures stagedName == name && usersToAdd == [] && usersToRemove == []
      ensures isEditing && hasActiveChannel
    {
      this.me := me;
      this.id := id;
      this.creator := creator;
      this.name := name;
      this.members := members;
      deleted := false;
      calls := [];
      stagedName := name;
      usersToAdd := [];
      usersToRemove := [];
      isEditing := true;
      hasActiveChannel := true;
    }

    predicate IsCreator() {
      creator == Some(me)
    }

    predicate IsCurrentUserLeaving() reads this {
      me in usersToRemove
    }

    /** The calls a Save would make if no guard rejects it. */
    function PendingCalls(): seq<ChannelCall> reads this {
      Plan(IsCreator(), stagedName, name, id, usersToAdd, usersToRemove)
    }

    /** `ChannelNameInput.handleChange`: the input is disabled for non-creators. */
    method ChangeName(value: string)
      modifies this`stagedName
      ensures stagedName == if IsCreator() then value else old(stagedName)
    {
      if IsCreator() {
        stagedName := value;
      }
    }

    /** The user list's selection becomes the staged additions. */
    method SelectUsersToAdd(ids: seq<UserId>)
      modifies this`usersToAdd
      ensures usersToAdd == ids
    {
      usersToAdd := ids;
    }

    /**
     * The button on a member's row: Leave/Cancel on your own row, Remove/Undo on
     * the others' rows for the creator, no button otherwise.
     */
    method ToggleRemove(target: UserId)
      requires target in members
      modifies this`usersToRemove
      ensures usersToRemove ==
        if target == me || IsCreator() then Toggled(old(usersToRemove), target) else old(usersToRemove)
    {
      if target == me || IsCreator() {
        var isToRemove := target in usersToRemove;
        usersToRemove := if isToRemove then Without(usersToRemove, target) else usersToRemove + [target];
      }
    }

    /**
     * `updateChannel`: the guards, then rename, add and remove in that order,
     * stopping at the first call that throws. Editing closes only when every
     * call went through; the active channel is cleared when the user's own
     * removal went through.
     */
    method UpdateChannel(failing: set<ChannelCall>) returns (r: Outcome)
      modifies this
      ensures var denied := Authorize(IsCreator(), me, old(usersToAdd), old(usersToRemove));
        denied.Some? ==> r == Rejected(denied.value) && unchanged(this)
      ensures Authorize(IsCreator(), me, old(usersToAdd), old(usersToRemove)) == None ==>
        var e := Run(old(PendingCalls()), failing);
        && calls == old(calls) + Issued(e)
        && name == ApplyName(old(name), e.done)
        && members == ApplyMembers(old(members), e.done)
        && (r == Done <==> e.failure == None)
        && (e.failure.Some? ==> r == Failed(e.failure.value))
        && isEditing == (old(isEditing) && e.failure.Some?)
        && hasActiveChannel == (old(hasActiveChannel) && !(old(IsCurrentUserLeaving()) && e.failure == None))
        && deleted == old(deleted)
        && stagedName == old(stagedName) && usersToAdd == old(usersToAdd) && usersToRemove == old(usersToRemove)
    {
      if !IsCreator() && |usersToAdd| > 0 {
        return Rejected(AddDenied);
      }
      if !IsCreator() && HasOther(usersToRemove, me) {
        return Rejected(RemoveDenied);
      }
      PlanLayout(IsCreator(), stagedName, name, id, usersToAdd, usersToRemove);
      ghost var e;
      r, e := Commit(failing, PendingCalls());
    }

    /**
     * One guarded, awaited call on the hosted channel: when `guard` holds the
     * call `c`, which is `plan[k]`, is made, and it takes effect unless it
     * throws. `plan[..k]` are the calls of this commit that took effect before.
     */
    method Step(guard: bool, c: ChannelCall, failing: set<ChannelCall>, ghost plan: seq<ChannelCall>,
                ghost c0: seq<ChannelCall>, ghost n0: string, ghost m0: set<UserId>, ghost k: nat)
      returns (ok: bool, ghost k': nat)
      requires k <= |plan| && (guard ==> k < |plan| && plan[k] == c)
      requires calls == c0 + plan[..k] && name == ApplyName(n0, plan[..k]) && members == ApplyMembers(m0, plan[..k])
      requires NoneFail(plan[..k], failing)
      modifies this`calls, this`name, this`members
      ensures k' == if guard then k + 1 else k
      ensures ok == !(guard && c in failing)
      ensures ok ==> k' <= |plan| && NoneFail(plan[..k'], failing)
      ensures ok ==> calls == c0 + plan[..k'] && name == ApplyName(n0, plan[..k']) && members == ApplyMembers(m0, plan[..k'])
      ensures !ok ==> var e := Run(plan, failing);
        && e == Execution(plan[..k], Some(c))
        && calls == c0 + Issued(e) && name == ApplyName(n0, e.done) && members == ApplyMembers(m0, e.done)
    {
      if !guard {
        return true, k;
      }
      LogAppend(c0, plan[..k], c);
      calls := calls + [c];
      if c in failing {
        RunPrefix(plan, failing, plan[..k]);
        return false, k + 1;
      }
      assert plan[..k + 1] == plan[..k] + [c];
      ApplyAppend(m0, n0, plan[..k], c);
      if c.Rename? {
        name := c.newName;
      }
      members := ApplyCall(members, c);
      NoneFailAppend(plan[..k], [c], failing);
      ok, k' := true, k + 1;
    }

    /** The `try` block of `updateChannel`, reached once both guards have passed. */
    method Commit(failing: set<ChannelCall>, ghost plan: seq<ChannelCall>) returns (r: Outcome, ghost e: Execution)
      requires Laid(plan, IsCreator(), stagedName, name, id, usersToAdd, usersToRemove)
      modifies this`calls, this`name, this`members, this`isEditing, this`hasActiveChannel
      ensures e == Run(plan, failing)
      ensures calls == old(calls) + Issued(e)
      ensures name == ApplyName(old(name), e.done)
      ensures members == ApplyMembers(old(members), e.done)
      ensures r == Done <==> e.failure == None
      ensures e.failure.Some? ==> r == Failed(e.failure.value)
      ensures isEditing == (old(isEditing) && e.failure.Some?)
      ensures hasActiveChannel ==
        (old(hasActiveChannel) && !(me in old(usersToRemove) && e.failure == None))
    {
      var isCreator := IsCreator();
      var isLeaving := me in usersToRemove;
      var nameChanged := stagedName != DisplayName(name, id);

      ghost var c0, n0, m0 := calls, name, members;
      assert plan[..0] == [];
      var ok;
      ghost var k: nat;

      ok, k := Step(isCreator && nameChanged, Rename(stagedName), failing, plan, c0, n0, m0, 0);
      if !ok {
        e := Run(plan, failing);
        return Failed(Rename(stagedName)), e;
      }
      ghost var k1 := k;

      ok, k := Step(isCreator && |usersToAdd| > 0, AddMembers(usersToAdd), failing, plan, c0, n0, m0, k);
      if !ok {
        e := Run(plan, failing);
        return Failed(AddMembers(usersToAdd)), e;
      }
      ghost var k2 := k;

      ok, k := Step(|usersToRemove| > 0, RemoveMembers(usersToRemove), failing, plan, c0, n0, m0, k);
      if !ok {
        e := Run(plan, failing);
        return Failed(RemoveMembers(usersToRemove)), e;
      }
      if |usersToRemove| > 0 && isLeaving {
        hasActiveChannel := false;
      }

      assert k == |plan|;
      assert plan[..k] == plan;
      RunPrefix(plan, failing, plan);
      e := Execution(plan, None);
      assert Issued(e) == plan;
      isEditing := false;
      r := Done;
    }

    /** `deleteChannel`: only the creator may delete; success closes the form and clears the active channel. */
    method DeleteChannel(failing: set<ChannelCall>) returns (r: Outcome)
      modifies this
      ensures !IsCreator() ==> r == Rejected(DeleteDenied) && unchanged(this)
      ensures IsCreator() ==>
        && calls == old(calls) + [Delete]
        && (Delete in failing ==>
              r == Failed(Delete) && deleted == old(deleted)
              && isEditing == old(isEditing) && hasActiveChannel == old(hasActiveChannel))
        && (Delete !in failing ==> r == Done && deleted && !isEditing && !hasActiveChannel)
        && name == old(name) && members == old(members)
        && stagedName == old(stagedName) && usersToAdd == old(usersToAdd) && usersToRemove == old(usersToRemove)
    {
      if !IsCreator() {
        return Rejected(DeleteDenied);
      }
      calls := calls + [Delete];
      if Delete in failing {
        return Failed(Delete);
      }
      deleted := true;
      isEditing := false;
      hasActiveChannel := false;
      r := Done;
    }
  }

  lemma LogAppend(log: seq<ChannelCall>, done: seq<ChannelCall>, c: ChannelCall)
    ensures (log + done) + [c] == log + (done + [c])
  {
  }

  /**
   * When the calls in `done` went through and the next call of `plan` throws
   * (or the plan is exhausted), `Run` stops exactly there.
   */
  lemma {:induction false} RunPrefix(plan: seq<ChannelCall>, failing: set<ChannelCall>, done: seq<ChannelCall>)
    requires done <= plan
    requires NoneFail(done, failing)
    requires |done| < |plan| ==> plan[|done|] in failing
    ensures Run(plan, failing) ==
      Execution(done, if |done| < |plan| then Some(plan[|done|]) else None)
  {
    if done != [] {
      assert done[1..] <= plan[1..];
      RunPrefix(plan[1..], failing, done[1..]);
      assert done == [plan[0]] + done[1..];
    }
  }
}
