/** `Ring::push` against `Ring::stream`: storing and broadcasting are two steps, so are subscribing and
    taking the snapshot. Lines are named by their position in the order of storing. */
module LogStream {
  import opened Basics
  import opened Ring

  type Line = nat

  /** What a reader receives from the broadcast: a line, or the note that it fell behind and `n` were dropped. */
  datatype Item = Log(line: Line) | Dropped(n: nat)

  /** The arguments of `stream`, the capacity of the ring, and how far a reader may fall behind. */
  datatype Setup = Setup(cap: nat, room: nat, existing: bool, follow: bool)

  /** `sent` is the broadcast order, `pending` the lines stored but not broadcast. A reader subscribes at
      position `subAt` of `sent`, takes its snapshot when `snapAt` lines were stored, and then follows the
      broadcast, up to position `pos` so far. */
  datatype Sys = Sys(
    stored: nat,
    pending: set<Line>,
    sent: seq<Line>,
    subAt: Option<nat>,
    snapAt: Option<nat>,
    snapshot: seq<Line>,
    pos: nat,
    followed: seq<Item>)

  datatype Label = Store | Broadcast(line: Line) | Subscribe | Snapshot | Follow | Lag

  function Init(): Sys {
    Sys(0, {}, [], None, None, [], 0, [])
  }

  function Upto(n: nat): seq<Line> {
    seq(n, i => i)
  }

  predicate Enabled(c: Setup, s: Sys, l: Label) {
    match l
    case Store => true
    case Broadcast(i) => i in s.pending
    case Subscribe => s.subAt.None?
    case Snapshot => s.subAt.Some? && s.snapAt.None?
    case Follow => c.follow && s.snapAt.Some? && s.pos < |s.sent| <= s.pos + c.room
    case Lag => c.follow && s.snapAt.Some? && s.pos + c.room < |s.sent|
  }

  function Apply(c: Setup, s: Sys, l: Label): Sys
    requires Enabled(c, s, l)
  {
    match l
    case Store => s.(stored := s.stored + 1, pending := s.pending + {s.stored})
    case Broadcast(i) => s.(pending := s.pending - {i}, sent := s.sent + [i])
    case Subscribe => s.(subAt := Some(|s.sent|), pos := |s.sent|)
    case Snapshot => s.(snapAt := Some(s.stored), snapshot := if c.existing then LastN(Upto(s.stored), c.cap) else [])
    case Follow => s.(followed := s.followed + [Log(s.sent[s.pos])], pos := s.pos + 1)
    case Lag => s.(followed := s.followed + [Dropped(|s.sent| - c.room - s.pos)], pos := |s.sent| - c.room)
  }

  function Exec(c: Setup, ls: seq<Label>): Option<Sys>
    decreases |ls|
  {
    if ls == [] then Some(Init()) else
    match Exec(c, ls[..|ls| - 1])
    case None => None
    case Some(s) => if Enabled(c, s, ls[|ls| - 1]) then Some(Apply(c, s, ls[|ls| - 1])) else None
  }

  // ---------------------------------------------------------------- what has been followed

  /** The lines among the items, in order. */
  function Lines(items: seq<Item>): seq<Line> {
    if items == [] then [] else
    Lines(items[..|items| - 1]) + match items[|items| - 1] case Log(i) => [i] case Dropped(_) => []
  }

  /** How many lines the reader was told it had missed. */
  function Lost(items: seq<Item>): nat {
    if items == [] then 0 else
    Lost(items[..|items| - 1]) + match items[|items| - 1] case Log(_) => 0 case Dropped(n) => n
  }

  /** The items account for the positions `from` to `to` of the broadcast, one by one and in order. */
  ghost predicate Follows(items: seq<Item>, sent: seq<Line>, from: nat, to: nat) {
    if items == [] then from == to else
    match items[|items| - 1]
    case Log(i) => from < to <= |sent| && sent[to - 1] == i && Follows(items[..|items| - 1], sent, from, to - 1)
    case Dropped(n) => from + n <= to <= |sent| && Follows(items[..|items| - 1], sent, from, to - n)
  }

  lemma {:induction false} FollowsMore(items: seq<Item>, sent: seq<Line>, sent': seq<Line>, from: nat, to: nat)
    requires Follows(items, sent, from, to) && sent <= sent'
    ensures Follows(items, sent', from, to)
    decreases |items|
  {
    if items == [] {
    } else {
      match items[|items| - 1]
      case Log(_) => FollowsMore(items[..|items| - 1], sent, sent', from, to - 1);
      case Dropped(n) => FollowsMore(items[..|items| - 1], sent, sent', from, to - n);
    }
  }

  lemma FollowsSnoc(items: seq<Item>, sent: seq<Line>, from: nat, to: nat, x: Item)
    requires Follows(items, sent, from, to)
    requires match x case Log(i) => to < |sent| && sent[to] == i case Dropped(n) => from <= to && to + n <= |sent|
    ensures Follows(items + [x], sent, from, if x.Log? then to + 1 else to + x.n)
  {
    assert (items + [x])[..|items|] == items;
    FollowsUp(items, sent, from, to);
  }

  lemma {:induction false} FollowsUp(items: seq<Item>, sent: seq<Line>, from: nat, to: nat)
    requires Follows(items, sent, from, to)
    ensures from <= to && (items != [] ==> to <= |sent|)
    ensures |Lines(items)| + Lost(items) == to - from
    decreases |items|
  {
    if items == [] {
    } else {
      match items[|items| - 1]
      case Log(_) => FollowsUp(items[..|items| - 1], sent, from, to - 1);
      case Dropped(n) => FollowsUp(items[..|items| - 1], sent, from, to - n);
    }
  }

  /** Every line followed was broadcast in that range. */
  lemma {:induction false} LinesInRange(items: seq<Item>, sent: seq<Line>, from: nat, to: nat, i: Line)
    requires Follows(items, sent, from, to) && i in Lines(items)
    ensures exists k :: from <= k < to <= |sent| && sent[k] == i
    decreases |items|
  {
    var init := items[..|items| - 1];
    match items[|items| - 1]
    case Log(j) =>
      FollowsUp(init, sent, from, to - 1);
      if i in Lines(init) {
        LinesInRange(init, sent, from, to - 1, i);
        var k :| from <= k < to - 1 && sent[k] == i;
        assert sent[k] == i;
      } else {
        assert sent[to - 1] == i;
      }
    case Dropped(n) =>
      LinesInRange(init, sent, from, to - n, i);
      var k :| from <= k < to - n && sent[k] == i;
      assert sent[k] == i;
  }

  /** Nothing lost: the lines are that range of the broadcast. */
  lemma {:induction false} AllFollowed(items: seq<Item>, sent: seq<Line>, from: nat, to: nat)
    requires Follows(items, sent, from, to) && Lost(items) == 0 && from <= |sent|
    ensures from <= to <= |sent| && Lines(items) == sent[from..to]
    decreases |items|
  {
    FollowsUp(items, sent, from, to);
    if items == [] {
    } else {
      match items[|items| - 1]
      case Log(_) =>
        AllFollowed(items[..|items| - 1], sent, from, to - 1);
        assert sent[from..to] == sent[from..to - 1] + [sent[to - 1]];
      case Dropped(n) => AllFollowed(items[..|items| - 1], sent, from, to);
    }
  }

  /** Something lost: some line of the range is not among the lines followed. */
  lemma {:induction false} OneMissing(items: seq<Item>, sent: seq<Line>, from: nat, to: nat) returns (k: nat)
    requires Follows(items, sent, from, to) && Lost(items) > 0 && NoDup(sent)
    ensures from <= k < to <= |sent| && sent[k] !in Lines(items)
    decreases |items|
  {
    var init := items[..|items| - 1];
    match items[|items| - 1]
    case Log(i) => k := OneMissing(init, sent, from, to - 1);
    case Dropped(n) =>
      if n == 0 {
        k := OneMissing(init, sent, from, to);
      } else {
        k := to - 1;
        FollowsUp(init, sent, from, to - n);
        if sent[k] in Lines(init) { LinesInRange(init, sent, from, to - n, sent[k]); }
      }
  }

  lemma NoneMissingIff(items: seq<Item>, sent: seq<Line>, from: nat, to: nat)
    requires Follows(items, sent, from, to) && NoDup(sent) && from <= to <= |sent|
    ensures (forall k :: from <= k < to ==> sent[k] in Lines(items)) <==> Lost(items) == 0
  {
    hide Follows;
    if Lost(items) == 0 {
      AllFollowed(items, sent, from, to);
      forall k | from <= k < to ensures sent[k] in Lines(items) { assert sent[from..to][k - from] == sent[k]; }
    } else {
      var k := OneMissing(items, sent, from, to);
    }
  }

  lemma LineInRange(items: seq<Item>, sent: seq<Line>, from: nat, to: nat, i: Line)
    requires Follows(items, sent, from, to) && from <= to <= |sent|
    ensures i in Lines(items) ==> i in sent[from..to]
  {
    hide Follows;
    if i in Lines(items) {
      LinesInRange(items, sent, from, to, i);
      var k :| from <= k < to && sent[k] == i;
      assert sent[from..to][k - from] == i;
    }
  }

  // ---------------------------------------------------------------- the invariant

  /** The oldest line a snapshot retains. */
  function Oldest(c: Setup, s: Sys): nat
    requires s.snapAt.Some?
  {
    if s.snapAt.value <= c.cap then 0 else s.snapAt.value - c.cap
  }

  ghost predicate SentOk(s: Sys) {
    && (forall i :: i in s.pending ==> i < s.stored && i !in s.sent)
    && (forall i :: 0 <= i < s.stored ==> i in s.pending || i in s.sent)
    && (forall k :: 0 <= k < |s.sent| ==> s.sent[k] < s.stored)
    && NoDup(s.sent)
  }

  ghost predicate ReaderOk(c: Setup, s: Sys) {
    && (s.subAt.Some? ==> s.subAt.value <= s.pos <= |s.sent| && Follows(s.followed, s.sent, s.subAt.value, s.pos))
    && (s.snapAt.Some? ==>
          && s.subAt.Some? && s.snapAt.value <= s.stored
          && s.snapshot == (if c.existing then Upto(s.snapAt.value)[Oldest(c, s)..] else [])
          && forall k :: 0 <= k < s.subAt.value ==> s.sent[k] < s.snapAt.value)
    && (s.snapAt.None? ==> s.followed == [] && s.snapshot == [])
    && (s.subAt.None? ==> s.snapAt.None?)
    && (!c.follow ==> s.followed == [])
  }

  ghost predicate Inv(c: Setup, s: Sys) {
    SentOk(s) && ReaderOk(c, s)
  }

  lemma BroadcastInv(c: Setup, s: Sys, i: Line)
    requires Inv(c, s) && i in s.pending
    ensures Inv(c, Apply(c, s, Broadcast(i)))
  {
    var s' := Apply(c, s, Broadcast(i));
    assert s'.sent[|s.sent|] == i;
    assert forall j :: j in s'.sent <==> j in s.sent || j == i;
    if s.subAt.Some? { FollowsMore(s.followed, s.sent, s'.sent, s.subAt.value, s.pos); }
  }

  lemma FollowInv(c: Setup, s: Sys, l: Label)
    requires Inv(c, s) && Enabled(c, s, l) && (l.Follow? || l.Lag?)
    ensures Inv(c, Apply(c, s, l))
  {
    FollowsSnoc(s.followed, s.sent, s.subAt.value, s.pos,
      if l.Follow? then Log(s.sent[s.pos]) else Dropped(|s.sent| - c.room - s.pos));
  }

  lemma ReaderInv(c: Setup, s: Sys, l: Label)
    requires Inv(c, s) && Enabled(c, s, l) && (l.Subscribe? || l.Snapshot?)
    ensures Inv(c, Apply(c, s, l))
  {
    var s' := Apply(c, s, l);
    if l.Snapshot? && c.existing { assert s'.snapshot == Upto(s.stored)[Oldest(c, s')..]; }
  }

  lemma StoreInv(c: Setup, s: Sys)
    requires Inv(c, s)
    ensures Inv(c, Apply(c, s, Store))
  {
    assert s.stored !in s.sent;
  }

  lemma InvStep(c: Setup, s: Sys, l: Label)
    requires Inv(c, s) && Enabled(c, s, l)
    ensures Inv(c, Apply(c, s, l))
  {
    hide Inv, Apply;
    match l
    case Store => StoreInv(c, s);
    case Broadcast(i) => BroadcastInv(c, s, i);
    case Subscribe => ReaderInv(c, s, l);
    case Snapshot => ReaderInv(c, s, l);
    case Follow => FollowInv(c, s, l);
    case Lag => FollowInv(c, s, l);
  }

  lemma {:induction false} RunInv(c: Setup, ls: seq<Label>)
    requires Exec(c, ls).Some?
    ensures Inv(c, Exec(c, ls).value)
    decreases |ls|
  {
    if ls == [] {
    } else {
      RunInv(c, ls[..|ls| - 1]);
      InvStep(c, Exec(c, ls[..|ls| - 1]).value, ls[|ls| - 1]);
    }
  }

  // ---------------------------------------------------------------- what a reader gets

  lemma InSnapshot(c: Setup, s: Sys, i: Line)
    requires Inv(c, s) && s.snapAt.Some?
    ensures i in s.snapshot <==> c.existing && Oldest(c, s) <= i < s.snapAt.value
  {
    var up := Upto(s.snapAt.value);
    if Oldest(c, s) <= i < s.snapAt.value { assert up[Oldest(c, s)..][i - Oldest(c, s)] == i; }
  }

  /** What any reader gets: the snapshot is the retained lines, if it was asked for; what it followed
      accounts for the broadcast from its subscription on, line by line, each line once and in order; the
      notes say how many are missing, and none is missing exactly when there is no such note. */
  lemma StreamAccounts(c: Setup, ls: seq<Label>, i: Line)
    requires Exec(c, ls).Some? && Exec(c, ls).value.snapAt.Some?
    ensures var s := Exec(c, ls).value;
            && s.subAt.Some? && s.subAt.value <= s.pos <= |s.sent|
            && (i in s.snapshot <==> c.existing && Oldest(c, s) <= i < s.snapAt.value)
            && Follows(s.followed, s.sent, s.subAt.value, s.pos)
            && |Lines(s.followed)| + Lost(s.followed) == s.pos - s.subAt.value
            && (i in Lines(s.followed) ==> c.follow && i in s.sent[s.subAt.value..s.pos])
            && ((forall k :: s.subAt.value <= k < s.pos ==> s.sent[k] in Lines(s.followed)) <==> Lost(s.followed) == 0)
  {
    RunInv(c, ls);
    var s := Exec(c, ls).value;
    InSnapshot(c, s, i);
    hide Exec, Follows;
    FollowsUp(s.followed, s.sent, s.subAt.value, s.pos);
    LineInRange(s.followed, s.sent, s.subAt.value, s.pos, i);
    NoneMissingIff(s.followed, s.sent, s.subAt.value, s.pos);
  }

  /** No gap: a reader with both flags that has read up to the last broadcast and never fell behind has
      every broadcast line from the oldest retained one on, in its snapshot or after it; lines stored
      before the snapshot are in the snapshot whether broadcast or not. A line comes twice exactly when it
      was retained in the snapshot and broadcast after the subscription. */
  lemma StreamHasNoGap(c: Setup, ls: seq<Label>, i: Line)
    requires c.existing && c.follow && Exec(c, ls).Some? && Exec(c, ls).value.snapAt.Some?
    requires Exec(c, ls).value.pos == |Exec(c, ls).value.sent| && Lost(Exec(c, ls).value.followed) == 0
    ensures var s := Exec(c, ls).value;
            && s.subAt.Some? && s.subAt.value <= |s.sent|
            && (Oldest(c, s) <= i && i in s.sent ==> i in s.snapshot || i in Lines(s.followed))
            && (i in s.snapshot && i in Lines(s.followed) <==>
                  Oldest(c, s) <= i < s.snapAt.value && i in s.sent[s.subAt.value..])
  {
    RunInv(c, ls);
    var s := Exec(c, ls).value;
    hide Exec;
    InSnapshot(c, s, i);
    AllFollowed(s.followed, s.sent, s.subAt.value, s.pos);
    assert Lines(s.followed) == s.sent[s.subAt.value..];
    if i in s.sent && s.snapAt.value <= i {
      var k :| 0 <= k < |s.sent| && s.sent[k] == i;
      assert s.sent[s.subAt.value..][k - s.subAt.value] == i;
    }
  }

  /** A push: the line is stored as the newest one and broadcast after all earlier broadcasts, and nothing
      else changes. */
  lemma PushCompletes(c: Setup, ls: seq<Label>)
    requires Exec(c, ls).Some?
    ensures var s := Exec(c, ls).value;
            Exec(c, ls + [Store, Broadcast(s.stored)]) == Some(s.(stored := s.stored + 1, sent := s.sent + [s.stored]))
  {
    var s := Exec(c, ls).value;
    RunInv(c, ls);
    assert s.pending + {s.stored} - {s.stored} == s.pending;
    hide Inv, Exec;
    Next(c, ls, s, Store);
    var m := Apply(c, s, Store);
    Next(c, ls + [Store], m, Broadcast(s.stored));
    assert (ls + [Store]) + [Broadcast(s.stored)] == ls + [Store, Broadcast(s.stored)];
  }

  lemma Next(c: Setup, ls: seq<Label>, s: Sys, l: Label)
    requires Exec(c, ls) == Some(s) && Enabled(c, s, l)
    ensures Exec(c, ls + [l]) == Some(Apply(c, s, l))
  {
    assert (ls + [l])[..|ls|] == ls;
  }

  /** A reader subscribes and takes its snapshot: the last `cap` lines stored, if it asked for them, and it
      will follow from the broadcasts after its subscription on. */
  lemma StreamStarts(c: Setup, ls: seq<Label>)
    requires Exec(c, ls).Some? && Exec(c, ls).value.subAt.None?
    ensures var s := Exec(c, ls).value;
            Exec(c, ls + [Subscribe, Snapshot]) ==
              Some(s.(subAt := Some(|s.sent|), pos := |s.sent|, snapAt := Some(s.stored),
                      snapshot := if c.existing then LastN(Upto(s.stored), c.cap) else []))
  {
    var s := Exec(c, ls).value;
    RunInv(c, ls);
    assert s.snapAt.None? && s.snapshot == [];
    hide Inv, Exec;
    Next(c, ls, s, Subscribe);
    Next(c, ls + [Subscribe], Apply(c, s, Subscribe), Snapshot);
    assert (ls + [Subscribe]) + [Snapshot] == ls + [Subscribe, Snapshot];
  }

  /** A reader that follows and has not read up to the last broadcast can go on: by the next line if it has
      not fallen behind, else by the note of what it missed. */
  lemma CanRead(c: Setup, s: Sys)
    requires c.follow && s.snapAt.Some? && s.pos < |s.sent|
    ensures Enabled(c, s, Follow) <==> |s.sent| - s.pos <= c.room
    ensures Enabled(c, s, Lag) <==> |s.sent| - s.pos > c.room
  {
  }

  /** And catches up by its own steps, each giving it the next line, with nothing lost. */
  lemma {:induction false} CatchesUp(c: Setup, ls: seq<Label>) returns (more: seq<Label>)
    requires c.follow && Exec(c, ls).Some? && Exec(c, ls).value.snapAt.Some?
    requires Exec(c, ls).value.pos <= |Exec(c, ls).value.sent| <= Exec(c, ls).value.pos + c.room
    ensures Exec(c, ls + more).Some? && forall k :: 0 <= k < |more| ==> more[k] == Follow
    ensures var s := Exec(c, ls).value; var s' := Exec(c, ls + more).value;
            && s' == s.(pos := |s.sent|, followed := s'.followed)
            && Lines(s'.followed) == Lines(s.followed) + s.sent[s.pos..] && Lost(s'.followed) == Lost(s.followed)
    decreases |Exec(c, ls).value.sent| - Exec(c, ls).value.pos
  {
    var s := Exec(c, ls).value;
    if s.pos == |s.sent| {
      more := [];
      assert ls + more == ls;
    } else {
      var s1 := NextLine(c, ls);
      hide Exec, Lines, Lost;
      var rest := CatchesUp(c, ls + [Follow]);
      more := [Follow] + rest;
      assert (ls + [Follow]) + rest == ls + more;
      Longer(Lines(s.followed), s.sent, s.pos);
    }
  }

  lemma Longer(lines: seq<Line>, sent: seq<Line>, pos: nat)
    requires pos < |sent|
    ensures lines + [sent[pos]] + sent[pos + 1..] == lines + sent[pos..]
  {
  }

  lemma NextLine(c: Setup, ls: seq<Label>) returns (s1: Sys)
    requires Exec(c, ls).Some? && Enabled(c, Exec(c, ls).value, Follow)
    ensures var s := Exec(c, ls).value;
            && Exec(c, ls + [Follow]) == Some(s1) && s1 == s.(pos := s.pos + 1, followed := s1.followed)
            && Lines(s1.followed) == Lines(s.followed) + [s.sent[s.pos]] && Lost(s1.followed) == Lost(s.followed)
  {
    var s := Exec(c, ls).value;
    assert (ls + [Follow])[..|ls|] == ls;
    s1 := Apply(c, s, Follow);
    assert s1.followed[..|s.followed|] == s.followed;
  }

  /** One task pushes: it stores a line only when its previous one has been broadcast. */
  ghost predicate OnePusher(c: Setup, ls: seq<Label>) {
    forall k :: 0 <= k < |ls| && ls[k].Store? && Exec(c, ls[..k]).Some? ==> Exec(c, ls[..k]).value.pending == {}
  }

  ghost predicate InOrder(s: Sys) {
    s.sent == Upto(|s.sent|) && s.pending <= {|s.sent|} && s.stored == |s.sent| + |s.pending|
  }

  lemma {:induction false} RunInOrder(c: Setup, ls: seq<Label>)
    requires Exec(c, ls).Some? && OnePusher(c, ls)
    ensures InOrder(Exec(c, ls).value)
    decreases |ls|
  {
    if ls == [] {
    } else {
      var init := ls[..|ls| - 1];
      forall k | 0 <= k < |init| && init[k].Store? && Exec(c, init[..k]).Some?
        ensures Exec(c, init[..k]).value.pending == {}
      {
        assert init[..k] == ls[..k] && init[k] == ls[k];
      }
      RunInOrder(c, init);
      InOrderStep(c, Exec(c, init).value, ls[|ls| - 1]);
    }
  }

  lemma InOrderStep(c: Setup, s: Sys, l: Label)
    requires InOrder(s) && Enabled(c, s, l) && (l.Store? ==> s.pending == {})
    ensures InOrder(Apply(c, s, l))
  {
    match l
    case Store =>
    case Broadcast(i) =>
      assert s.pending == {|s.sent|};
      assert Upto(|s.sent|) + [|s.sent|] == Upto(|s.sent| + 1);
    case _ =>
  }

  /** With one pusher, a reader that asked for the snapshot and never fell behind gets two ranges of the push
      order, the second starting no later than the first ends. */
  lemma OnePusherIsContiguous(c: Setup, ls: seq<Label>)
    requires c.existing && Exec(c, ls).Some? && Exec(c, ls).value.snapAt.Some? && OnePusher(c, ls)
    requires Lost(Exec(c, ls).value.followed) == 0
    ensures var s := Exec(c, ls).value;
            && s.subAt.Some? && s.subAt.value <= s.snapAt.value
            && (forall k :: 0 <= k < |s.snapshot| ==> s.snapshot[k] == Oldest(c, s) + k)
            && Oldest(c, s) + |s.snapshot| == s.snapAt.value
            && (forall k :: 0 <= k < |Lines(s.followed)| ==> Lines(s.followed)[k] == s.subAt.value + k)
  {
    RunInv(c, ls);
    RunInOrder(c, ls);
    var s := Exec(c, ls).value;
    hide Exec;
    AllFollowed(s.followed, s.sent, s.subAt.value, s.pos);
    if s.subAt.value > 0 { assert s.sent[s.subAt.value - 1] < s.snapAt.value; }
  }
}
