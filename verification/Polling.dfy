/** The Poller: a vector of watched descriptors, and a dispatch loop whose callbacks change it. */
module Polling {

  /** A poll(2) bit mask; POLLERR, POLLHUP and POLLNVAL are never told apart. */
  datatype Events = Events(pin: bool, pout: bool, perr: bool)

  const NOTHING := Events(false, false, false)

  /** A PolledAndPollfd node. `serial` stands for its address: no two nodes ever share it. */
  datatype Node = Node(serial: nat, polled: object, fd: int, events: Events, revents: Events)

  // ---------------------------------------------------------------- the vector

  /** findPolled: the first entry of that object and descriptor, or the end. */
  function Find(es: seq<Node>, polled: object, fd: int): (i: nat)
    ensures i <= |es|
    ensures i < |es| ==> es[i].polled == polled && es[i].fd == fd
    ensures forall j :: 0 <= j < i ==> es[j].polled != polled || es[j].fd != fd
  {
    if es == [] || (es[0].polled == polled && es[0].fd == fd) then 0 else 1 + Find(es[1..], polled, fd)
  }

  function WithEvents(es: seq<Node>, polled: object, fd: int, events: Events): (r: seq<Node>)
    ensures |r| == |es|
  {
    var i := Find(es, polled, fd);
    if i < |es| then es[i := es[i].(events := events)] else es
  }

  function Without(es: seq<Node>, polled: object, fd: int): seq<Node> {
    var i := Find(es, polled, fd);
    if i < |es| then es[..i] + es[i + 1..] else es
  }

  function Serials(es: seq<Node>): (r: seq<nat>)
    ensures |r| == |es|
    ensures forall i :: 0 <= i < |es| ==> r[i] == es[i].serial
  {
    seq(|es|, i requires 0 <= i < |es| => es[i].serial)
  }

  /** What a callback may do to the Poller. */
  datatype Op =
    | Add(polled: object, fd: int, events: Events)
    | SetEvents(polled: object, fd: int, events: Events)
    | Remove(polled: object, fd: int)

  datatype Vector = Vector(entries: seq<Node>, nextSerial: nat)

  function Apply(v: Vector, op: Op): Vector {
    match op
    case Add(polled, fd, events) =>
      Vector(v.entries + [Node(v.nextSerial, polled, fd, events, NOTHING)], v.nextSerial + 1)
    case SetEvents(polled, fd, events) => v.(entries := WithEvents(v.entries, polled, fd, events))
    case Remove(polled, fd) => v.(entries := Without(v.entries, polled, fd))
  }

  function ApplyAll(v: Vector, ops: seq<Op>): Vector
    decreases |ops|
  {
    if ops == [] then v else ApplyAll(Apply(v, ops[0]), ops[1..])
  }

  /** Serial numbers are distinct and below the next one. */
  predicate Proper(v: Vector) {
    && (forall i, j :: 0 <= i < j < |v.entries| ==> v.entries[i].serial != v.entries[j].serial)
    && (forall i :: 0 <= i < |v.entries| ==> v.entries[i].serial < v.nextSerial)
  }

  // ---------------------------------------------------------------- the simple dispatcher

  /** Position of the entry with that serial number, or the end. */
  function Where(es: seq<Node>, serial: nat): (i: nat)
    ensures i <= |es|
    ensures i < |es| ==> es[i].serial == serial
    ensures forall j :: 0 <= j < i ==> es[j].serial != serial
  {
    if es == [] || es[0].serial == serial then 0 else 1 + Where(es[1..], serial)
  }

  /** What the callback of the n-th visit does, given the entry it is called for. */
  type Callbacks = (nat, Node) -> seq<Op>

  datatype Round = Round(visited: seq<nat>, last: Vector)

  /** The reference dispatcher: walk over a snapshot of the registered entries; skip those that are no
      longer registered when their turn comes; call those with something to report. */
  function Walk(todo: seq<nat>, v: Vector, cb: Callbacks, n: nat): Round
    decreases |todo|
  {
    if todo == [] then Round([], v)
    else
      var i := Where(v.entries, todo[0]);
      if i == |v.entries| || v.entries[i].revents == NOTHING then Walk(todo[1..], v, cb, n)
      else
        var r := Walk(todo[1..], ApplyAll(v, cb(n, v.entries[i])), cb, n + 1);
        Round([todo[0]] + r.visited, r.last)
  }

  // ---------------------------------------------------------------- facts about the reference dispatcher

  predicate Has(es: seq<Node>, serial: nat) {
    serial in Serials(es)
  }

  lemma WhereHas(es: seq<Node>, serial: nat)
    ensures Where(es, serial) < |es| <==> Has(es, serial)
  {}

  /** The still registered ones of a list of serial numbers, in the list's order. */
  function Present(todo: seq<nat>, es: seq<Node>): seq<nat> {
    if todo == [] then []
    else (if Has(es, todo[0]) then [todo[0]] else []) + Present(todo[1..], es)
  }

  /** The list from its first still registered member on. */
  function Skip(todo: seq<nat>, es: seq<Node>): seq<nat> {
    if todo == [] || Has(es, todo[0]) then todo else Skip(todo[1..], es)
  }

  lemma {:induction false} SkipChangesNothing(todo: seq<nat>, v: Vector, cb: Callbacks, n: nat)
    ensures Walk(Skip(todo, v.entries), v, cb, n) == Walk(todo, v, cb, n)
    ensures Present(Skip(todo, v.entries), v.entries) == Present(todo, v.entries)
    ensures Skip(todo, v.entries) == [] || Has(v.entries, Skip(todo, v.entries)[0])
    ensures forall s :: s in Skip(todo, v.entries) ==> s in todo
  {
    if todo != [] && !Has(v.entries, todo[0]) {
      WhereHas(v.entries, todo[0]);
      SkipChangesNothing(todo[1..], v, cb, n);
    }
  }

  lemma {:induction false} PresentSame(todo: seq<nat>, es: seq<Node>, es': seq<Node>)
    requires forall s :: s in todo ==> (Has(es, s) <==> Has(es', s))
    ensures Present(todo, es) == Present(todo, es')
  {
    if todo != [] {
      PresentSame(todo[1..], es, es');
    }
  }

  function Minus(s: seq<nat>, r: nat): seq<nat> {
    if s == [] then [] else (if s[0] == r then [] else [s[0]]) + Minus(s[1..], r)
  }

  lemma {:induction false} MinusAppend(a: seq<nat>, b: seq<nat>, r: nat)
    ensures Minus(a + b, r) == Minus(a, r) + Minus(b, r)
  {
    if a == [] {
      assert a + b == b;
    } else {
      MinusAppend(a[1..], b, r);
      assert (a + b)[1..] == a[1..] + b && (a + b)[0] == a[0];
      var h, x, y := if a[0] == r then [] else [a[0]], Minus(a[1..], r), Minus(b, r);
      assert h + (x + y) == (h + x) + y;
    }
  }

  lemma {:induction false} MinusAbsent(s: seq<nat>, r: nat)
    requires r !in s
    ensures Minus(s, r) == s
  {
    if s != [] {
      MinusAbsent(s[1..], r);
    }
  }

  lemma {:induction false} PresentMinus(todo: seq<nat>, es: seq<Node>, es': seq<Node>, r: nat)
    requires forall s :: Has(es', s) <==> Has(es, s) && s != r
    ensures Present(todo, es') == Minus(Present(todo, es), r)
  {
    if todo != [] {
      PresentMinus(todo[1..], es, es', r);
      MinusAppend(if Has(es, todo[0]) then [todo[0]] else [], Present(todo[1..], es), r);
      assert Minus([todo[0]], r) == if todo[0] == r then [] else [todo[0]];
    }
  }

  /** The entries lo..hi of the vector are the ones of `todo` that are still registered. */
  predicate InStep(todo: seq<nat>, v: Vector, lo: int, hi: int) {
    && 0 <= lo <= hi <= |v.entries|
    && Proper(v)
    && (forall s :: s in todo ==> s < v.nextSerial)
    && Serials(v.entries[lo..hi]) == Present(todo, v.entries)
  }

  lemma AddKeepsStep(todo: seq<nat>, v: Vector, lo: int, hi: int, polled: object, fd: int, events: Events)
    requires InStep(todo, v, lo, hi)
    ensures InStep(todo, Apply(v, Add(polled, fd, events)), lo, hi)
  {
    var es := v.entries;
    var es' := Apply(v, Add(polled, fd, events)).entries;
    assert Serials(es') == Serials(es) + [v.nextSerial];
    PresentSame(todo, es, es');
    assert es'[lo..hi] == es[lo..hi];
  }

  lemma SetEventsKeepsStep(todo: seq<nat>, v: Vector, lo: int, hi: int, polled: object, fd: int, events: Events)
    requires InStep(todo, v, lo, hi)
    ensures InStep(todo, Apply(v, SetEvents(polled, fd, events)), lo, hi)
  {
    var es := v.entries;
    var es' := WithEvents(es, polled, fd, events);
    assert Serials(es') == Serials(es);
    PresentSame(todo, es, es');
    assert Serials(es'[lo..hi]) == Serials(es)[lo..hi] == Serials(es[lo..hi]);
  }

  /** Removing an entry: the window keeps the rest, shifted as removePolled shifts it. */
  lemma RemoveKeepsStep(todo: seq<nat>, v: Vector, lo: int, hi: int, polled: object, fd: int)
    requires InStep(todo, v, lo, hi)
    ensures var i := Find(v.entries, polled, fd);
      InStep(todo, Apply(v, Remove(polled, fd)),
             if i < |v.entries| && i < lo then lo - 1 else lo, if i < |v.entries| && i < hi then hi - 1 else hi)
  {
    var i := Find(v.entries, polled, fd);
    if i < |v.entries| {
      PresentAfterRemove(todo, v, i);
      WindowKept(v, lo, hi, i);
      ProperAfterRemove(v, i);
      hide Present, Has, Serials, Proper, Minus;
    }
  }

  lemma WindowKept(v: Vector, lo: int, hi: int, i: nat)
    requires Proper(v) && 0 <= lo <= hi <= |v.entries| && i < |v.entries|
    ensures Serials((v.entries[..i] + v.entries[i + 1..])[if i < lo then lo - 1 else lo..if i < hi then hi - 1 else hi])
            == Minus(Serials(v.entries[lo..hi]), v.entries[i].serial)
  {
    SerialsAfterRemove(v, i);
    hide Serials, Proper, Minus;
    WindowAfterRemove(Serials(v.entries), lo, hi, i);
    SliceSerials(v.entries, lo, hi);
    SliceSerials(v.entries[..i] + v.entries[i + 1..], if i < lo then lo - 1 else lo, if i < hi then hi - 1 else hi);
  }

  lemma SerialsAfterRemove(v: Vector, i: nat)
    requires Proper(v) && i < |v.entries|
    ensures var ss := Serials(v.entries);
      && ss[i] == v.entries[i].serial
      && Serials(v.entries[..i] + v.entries[i + 1..]) == ss[..i] + ss[i + 1..]
      && (forall k :: 0 <= k < |ss| && k != i ==> ss[k] != ss[i])
  {}

  lemma RemovedHas(ss: seq<nat>, i: nat)
    requires i < |ss| && forall k :: 0 <= k < |ss| && k != i ==> ss[k] != ss[i]
    ensures forall x :: x in ss[..i] + ss[i + 1..] <==> x in ss && x != ss[i]
  {}

  lemma PresentAfterRemove(todo: seq<nat>, v: Vector, i: nat)
    requires Proper(v) && i < |v.entries|
    ensures Present(todo, v.entries[..i] + v.entries[i + 1..]) == Minus(Present(todo, v.entries), v.entries[i].serial)
  {
    SerialsAfterRemove(v, i);
    RemovedHas(Serials(v.entries), i);
    hide Proper, Serials;
    PresentMinus(todo, v.entries, v.entries[..i] + v.entries[i + 1..], v.entries[i].serial);
  }

  lemma SliceSerials(es: seq<Node>, lo: int, hi: int)
    requires 0 <= lo <= hi <= |es|
    ensures Serials(es[lo..hi]) == Serials(es)[lo..hi]
  {}

  lemma ProperAfterRemove(v: Vector, i: nat)
    requires Proper(v) && i < |v.entries|
    ensures Proper(v.(entries := v.entries[..i] + v.entries[i + 1..]))
  {}

  lemma WindowAfterRemove(ss: seq<nat>, lo: int, hi: int, i: nat)
    requires 0 <= lo <= hi <= |ss| && i < |ss|
    requires forall k :: 0 <= k < |ss| && k != i ==> ss[k] != ss[i]
    ensures (ss[..i] + ss[i + 1..])[if i < lo then lo - 1 else lo..if i < hi then hi - 1 else hi]
            == Minus(ss[lo..hi], ss[i])
  {
    var r, w := ss[i], ss[lo..hi];
    CutSlice(ss, lo, hi, i);
    hide Minus;
    if lo <= i < hi {
      MinusMiddle(ss[lo..i], r, ss[i + 1..hi]);
    } else {
      MinusAbsent(w, r);
    }
  }

  lemma CutSlice(ss: seq<nat>, lo: int, hi: int, i: nat)
    requires 0 <= lo <= hi <= |ss| && i < |ss|
    ensures var cut := ss[..i] + ss[i + 1..];
      && (i < lo ==> cut[lo - 1..hi - 1] == ss[lo..hi])
      && (lo <= i < hi ==> cut[lo..hi - 1] == ss[lo..i] + ss[i + 1..hi])
      && (lo <= i < hi ==> ss[lo..hi] == ss[lo..i] + [ss[i]] + ss[i + 1..hi])
      && (hi <= i ==> cut[lo..hi] == ss[lo..hi])
  {
    if i < lo {
      CutBefore(ss, lo, hi, i);
    } else if i < hi {
      CutInside(ss, lo, hi, i);
    } else {
      assert (ss[..i] + ss[i + 1..])[lo..hi] == ss[lo..hi];
    }
  }

  lemma CutBefore(ss: seq<nat>, lo: int, hi: int, i: nat)
    requires i < lo <= hi <= |ss|
    ensures (ss[..i] + ss[i + 1..])[lo - 1..hi - 1] == ss[lo..hi]
  {
    assert (ss[..i] + ss[i + 1..])[i..] == ss[i + 1..];
    assert (ss[..i] + ss[i + 1..])[lo - 1..hi - 1] == ss[i + 1..][lo - 1 - i..hi - 1 - i];
  }

  lemma CutInside(ss: seq<nat>, lo: int, hi: int, i: nat)
    requires 0 <= lo <= i < hi <= |ss|
    ensures (ss[..i] + ss[i + 1..])[lo..hi - 1] == ss[lo..i] + ss[i + 1..hi]
    ensures ss[lo..hi] == ss[lo..i] + [ss[i]] + ss[i + 1..hi]
  {
    var cut := ss[..i] + ss[i + 1..];
    assert cut[lo..i] == ss[lo..i] && cut[i..hi - 1] == ss[i + 1..hi];
    assert cut[lo..hi - 1] == cut[lo..i] + cut[i..hi - 1];
  }

  lemma MinusMiddle(a: seq<nat>, r: nat, b: seq<nat>)
    requires r !in a && r !in b
    ensures Minus(a + [r] + b, r) == a + b
  {
    MinusAppend(a + [r], b, r);
    MinusAppend(a, [r], r);
    assert Minus([r], r) == [] && a + [] == a;
    MinusAbsent(a, r);
    MinusAbsent(b, r);
  }

  // ---------------------------------------------------------------- the Poller itself

  datatype PollFd = PollFd(fd: int, events: Events, revents: Events)

  /** The entries after poll() has reported. */
  function Reported(es: seq<Node>, answer: nat -> Events): (r: seq<Node>)
    ensures |r| == |es|
    ensures forall i :: 0 <= i < |es| ==> r[i] == es[i].(revents := answer(i))
  {
    seq(|es|, i requires 0 <= i < |es| => es[i].(revents := answer(i)))
  }

  class Poller {
    var polled: seq<Node>
    var nextSerial: nat
    var pollfds: array<PollFd>
    var origSize: int
    var index: int

    function View(): Vector
      reads this
    {
      Vector(polled, nextSerial)
    }

    constructor ()
      ensures View() == Vector([], 0) && fresh(pollfds) && pollfds.Length == 10
    {
      polled, nextSerial, origSize, index := [], 0, 0, 0;
      pollfds := new PollFd[10](_ => PollFd(0, NOTHING, NOTHING));
    }

    /** addPolled; fd and events are what the object's setPollfd fills in. */
    method AddPolled(toAdd: object, fd: int, events: Events)
      modifies this`polled, this`nextSerial
      ensures View() == Apply(old(View()), Add(toAdd, fd, events))
    {
      polled := polled + [Node(nextSerial, toAdd, fd, events, NOTHING)];
      nextSerial := nextSerial + 1;
    }

    method FindPolled(toFind: object, fd: int) returns (i: nat)
      ensures i == Find(polled, toFind, fd)
    {
      i := 0;
      while i < |polled| && (polled[i].polled != toFind || polled[i].fd != fd)
        invariant i <= |polled|
        invariant i + Find(polled[i..], toFind, fd) == Find(polled, toFind, fd)
      {
        assert polled[i..][1..] == polled[i + 1..];
        i := i + 1;
      }
    }

    method SetPolledEvents(toSet: object, fd: int, events: Events)
      modifies this`polled
      ensures View() == Apply(old(View()), SetEvents(toSet, fd, events))
    {
      var i := FindPolled(toSet, fd);
      if i < |polled| {
        polled := polled[i := polled[i].(events := events)];
      }
    }

    /** removePolled, with its corrections of the running loop's index and bound. */
    method RemovePolled(toRemove: object, fd: int)
      modifies this`polled, this`origSize, this`index
      ensures View() == Apply(old(View()), Remove(toRemove, fd))
      ensures var i := Find(old(polled), toRemove, fd);
        && origSize == old(origSize) - (if i < |old(polled)| && i < old(origSize) then 1 else 0)
        && index == old(index) - (if i < |old(polled)| && i <= old(index) then 1 else 0)
    {
      var i := FindPolled(toRemove, fd);
      if i < |polled| {
        if i < origSize { origSize := origSize - 1; }
        if i <= index { index := index - 1; }
        polled := polled[..i] + polled[i + 1..];
      }
    }

    method Perform(op: Op, ghost todo: seq<nat>)
      requires InStep(todo, View(), index + 1, origSize)
      modifies this`polled, this`nextSerial, this`origSize, this`index
      ensures View() == Apply(old(View()), op)
      ensures InStep(todo, View(), index + 1, origSize)
    {
      hide InStep, Apply;
      ghost var v, lo, hi := View(), index + 1, origSize;
      InBounds(todo, v, lo, hi);
      match op {
        case Add(polled, fd, events) =>
          AddPolled(polled, fd, events);
          AddKeepsStep(todo, v, lo, hi, polled, fd, events);
        case SetEvents(polled, fd, events) =>
          SetPolledEvents(polled, fd, events);
          SetEventsKeepsStep(todo, v, lo, hi, polled, fd, events);
        case Remove(polled, fd) =>
          RemovePolled(polled, fd);
          RemoveKeepsStep(todo, v, lo, hi, polled, fd);
      }
    }

    /** One callback's effect on the Poller, operation by operation. */
    method Callback(ops: seq<Op>, ghost todo: seq<nat>)
      requires InStep(todo, View(), index + 1, origSize)
      modifies this`polled, this`nextSerial, this`origSize, this`index
      ensures View() == ApplyAll(old(View()), ops)
      ensures InStep(todo, View(), index + 1, origSize)
    {
      hide InStep;
      var k := 0;
      while k < |ops|
        invariant k <= |ops|
        invariant InStep(todo, View(), index + 1, origSize)
        invariant ApplyAll(View(), ops[k..]) == ApplyAll(old(View()), ops)
      {
        assert ops[k..][1..] == ops[k + 1..];
        Perform(ops[k], todo);
        k := k + 1;
      }
    }

    /** Makes the scratch array large enough. */
    method Reserve()
      requires pollfds.Length > 0
      modifies this`pollfds
      ensures pollfds.Length >= |polled| && pollfds.Length > 0
      ensures pollfds == old(pollfds) || fresh(pollfds)
    {
      var size := pollfds.Length;
      if size < |polled| {
        while size < |polled|
          invariant size > 0
        {
          size := size * 2;
        }
        pollfds := new PollFd[size](_ => PollFd(0, NOTHING, NOTHING));
      }
    }

    /** poll() over a copy of the watched descriptors, and the copy back. */
    method AskKernel(answer: nat -> Events)
      requires pollfds.Length >= |polled|
      modifies this`polled, pollfds
      ensures polled == Reported(old(polled), answer)
    {
      var n := |polled|;
      for i := 0 to n
        invariant polled == old(polled)
        invariant forall j :: 0 <= j < i ==> pollfds[j] == PollFd(polled[j].fd, polled[j].events, polled[j].revents)
      {
        pollfds[i] := PollFd(polled[i].fd, polled[i].events, polled[i].revents);
      }
      for i := 0 to n
        invariant polled == old(polled)
        invariant forall j :: 0 <= j < n ==>
          pollfds[j] == PollFd(polled[j].fd, polled[j].events, if j < i then answer(j) else polled[j].revents)
      {
        pollfds[i] := pollfds[i].(revents := answer(i));
      }
      for i := 0 to n
        invariant |polled| == n
        invariant forall j :: 0 <= j < n ==>
          pollfds[j] == PollFd(old(polled)[j].fd, old(polled)[j].events, answer(j))
        invariant forall j :: 0 <= j < n ==>
          polled[j] == if j < i then old(polled)[j].(revents := answer(j)) else old(polled)[j]
      {
        var answered := pollfds[i];
        polled := polled[i := polled[i].(fd := answered.fd, events := answered.events, revents := answered.revents)];
      }
    }

    /** pollOnce: whatever the callbacks add and remove while the loop runs, it visits exactly what the
        reference dispatcher visits, in the same order, and leaves the same vector. */
    method PollOnce(result: int, answer: nat -> Events, cb: Callbacks) returns (visited: seq<nat>)
      requires Proper(View()) && pollfds.Length > 0
      modifies this, pollfds
      ensures Proper(View()) && pollfds.Length > 0 && (pollfds == old(pollfds) || fresh(pollfds))
      ensures result <= 0 ==> visited == [] && View() == old(View())
      ensures result > 0 ==>
        Round(visited, View())
        == Walk(Serials(old(polled)), Vector(Reported(old(polled), answer), old(nextSerial)), cb, 0)
    {
      visited := [];
      origSize := |polled|;
      Reserve();
      if result > 0 {
        AskKernel(answer);
        ReportedSame(old(polled), answer, nextSerial);
        hide Proper, Walk;
        visited := Dispatch(cb);
      }
    }

    /** One round of the loop: the entry at m_index, its callback, and the increment. `before` are the
        visits so far. */
    method Visit(cb: Callbacks, before: seq<nat>, ghost todo: seq<nat>)
      returns (visited: seq<nat>, ghost rest: seq<nat>)
      requires InStep(todo, View(), index, origSize) && index < origSize
      modifies this`polled, this`nextSerial, this`origSize, this`index
      ensures InStep(rest, View(), index, origSize) && |rest| < |todo|
      ensures Prepend(before, Walk(todo, old(View()), cb, |before|))
        == Prepend(visited, Walk(rest, View(), cb, |visited|))
    {
      hide InStep, Walk, Prepend, ApplyAll, Skip;
      ghost var v := View();
      LoopStep(todo, v, cb, |before|, index, origSize);
      rest := Skip(todo, polled)[1..];
      var node := polled[index];
      visited := before;
      if node.revents != NOTHING {
        visited := visited + [node.serial];
        Callback(cb(|before|, node), rest);
        PrependMore(before, node.serial, Walk(rest, View(), cb, |visited|));
      }
      index := index + 1;
    }

    /** The loop over m_index. */
    method Dispatch(cb: Callbacks) returns (visited: seq<nat>)
      requires Proper(View()) && origSize == |polled|
      modifies this`polled, this`nextSerial, this`origSize, this`index
      ensures Proper(View())
      ensures Round(visited, View()) == Walk(Serials(old(polled)), old(View()), cb, 0)
    {
      visited := [];
      index := 0;
      ghost var todo := Serials(polled);
      ghost var all := Walk(todo, View(), cb, 0);
      StartInStep(View());
      hide InStep, Walk, Proper, Skip, Prepend, ApplyAll;
      PrependNone(all);
      while index < origSize
        invariant InStep(todo, View(), index, origSize)
        invariant all == Prepend(visited, Walk(todo, View(), cb, |visited|))
        decreases |todo|
      {
        visited, todo := Visit(cb, visited, todo);
      }
      Finished(todo, View(), cb, |visited|, index, origSize);
      PrependLast(visited, View());
    }
  }

  lemma PrependNone(r: Round)
    ensures Prepend([], r) == r
  {}

  lemma PrependMore(visited: seq<nat>, serial: nat, r: Round)
    ensures Prepend(visited, Prepend([serial], r)) == Prepend(visited + [serial], r)
  {}

  lemma PrependLast(visited: seq<nat>, v: Vector)
    ensures Prepend(visited, Round([], v)) == Round(visited, v)
  {}

  lemma ReportedSame(es: seq<Node>, answer: nat -> Events, next: nat)
    ensures Serials(Reported(es, answer)) == Serials(es)
    ensures Proper(Vector(es, next)) ==> Proper(Vector(Reported(es, answer), next))
  {}

  function Prepend(visited: seq<nat>, r: Round): Round {
    Round(visited + r.visited, r.last)
  }

  lemma StartInStep(v: Vector)
    requires Proper(v)
    ensures InStep(Serials(v.entries), v, 0, |v.entries|)
  {
    var todo := Serials(v.entries);
    PresentAll(todo, v.entries);
    assert v.entries[0..|v.entries|] == v.entries;
  }

  lemma {:induction false} PresentAll(todo: seq<nat>, es: seq<Node>)
    requires forall s :: s in todo ==> Has(es, s)
    ensures Present(todo, es) == todo
  {
    if todo != [] {
      assert todo == [todo[0]] + todo[1..];
      PresentAll(todo[1..], es);
    }
  }

  lemma InBounds(todo: seq<nat>, v: Vector, lo: int, hi: int)
    requires InStep(todo, v, lo, hi)
    ensures 0 <= lo <= hi <= |v.entries|
  {}

  /** One round of the loop against one step of the reference dispatcher. */
  lemma LoopStep(todo: seq<nat>, v: Vector, cb: Callbacks, n: nat, lo: int, hi: int)
    requires InStep(todo, v, lo, hi) && lo < hi
    ensures 0 <= lo < |v.entries|
    ensures 0 < |Skip(todo, v.entries)| <= |todo|
    ensures var rest, node := Skip(todo, v.entries)[1..], v.entries[lo];
      && InStep(rest, v, lo + 1, hi)
      && Walk(todo, v, cb, n) ==
           if node.revents == NOTHING then Walk(rest, v, cb, n)
           else Prepend([node.serial], Walk(rest, ApplyAll(v, cb(n, node)), cb, n + 1))
  {
    SkipChangesNothing(todo, v, cb, n);
    SkipIsShorter(todo, v.entries);
    var now := Skip(todo, v.entries);
    assert InStep(now, v, lo, hi);
    hide Skip;
    NextInLine(now, v, lo, hi);
    hide InStep;
    WalkOne(now, v, cb, n, lo);
  }

  lemma {:induction false} SkipIsShorter(todo: seq<nat>, es: seq<Node>)
    ensures |Skip(todo, es)| <= |todo|
  {
    if todo != [] && !Has(es, todo[0]) {
      SkipIsShorter(todo[1..], es);
    }
  }

  /** The loop's current entry is the next one the reference dispatcher finds registered. */
  lemma NextInLine(todo: seq<nat>, v: Vector, lo: int, hi: int)
    requires InStep(todo, v, lo, hi) && lo < hi
    requires todo == [] || Has(v.entries, todo[0])
    ensures 0 <= lo < |v.entries|
    ensures todo != [] && todo[0] == v.entries[lo].serial && Where(v.entries, todo[0]) == lo
    ensures InStep(todo[1..], v, lo + 1, hi)
  {
    var w := Serials(v.entries[lo..hi]);
    assert w[0] == v.entries[lo].serial && w[1..] == Serials(v.entries[lo + 1..hi]);
    assert todo != [];
    assert Present(todo, v.entries) == [todo[0]] + Present(todo[1..], v.entries);
    forall s | s in todo[1..] ensures s < v.nextSerial {
      assert s in [todo[0]] + todo[1..] && [todo[0]] + todo[1..] == todo;
    }
    HeadIsFirst(v, lo);
  }

  lemma HeadIsFirst(v: Vector, i: nat)
    requires Proper(v) && i < |v.entries|
    ensures Where(v.entries, v.entries[i].serial) == i
  {}

  /** One step of the reference dispatcher. */
  lemma WalkOne(todo: seq<nat>, v: Vector, cb: Callbacks, n: nat, i: int)
    requires todo != [] && 0 <= i < |v.entries| && Where(v.entries, todo[0]) == i
    ensures var node := v.entries[i];
      Walk(todo, v, cb, n) ==
        if node.revents == NOTHING then Walk(todo[1..], v, cb, n)
        else Prepend([todo[0]], Walk(todo[1..], ApplyAll(v, cb(n, node)), cb, n + 1))
  {}

  lemma Finished(todo: seq<nat>, v: Vector, cb: Callbacks, n: nat, lo: int, hi: int)
    requires InStep(todo, v, lo, hi) && lo >= hi
    ensures Walk(todo, v, cb, n) == Round([], v) && Proper(v)
  {
    assert Serials(v.entries[lo..hi]) == [];
    NothingLeft(todo, v, cb, n);
  }

  lemma {:induction false} NothingLeft(todo: seq<nat>, v: Vector, cb: Callbacks, n: nat)
    requires Present(todo, v.entries) == []
    ensures Walk(todo, v, cb, n) == Round([], v)
  {
    if todo != [] {
      WhereHas(v.entries, todo[0]);
      NothingLeft(todo[1..], v, cb, n);
    }
  }

  // ---------------------------------------------------------------- what one round visits

  /** What poll() reported for a registered entry. */
  function ReportFor(es: seq<Node>, serial: nat): Events {
    if Where(es, serial) < |es| then es[Where(es, serial)].revents else NOTHING
  }

  predicate Subsequence(a: seq<nat>, b: seq<nat>) {
    a == [] || (b != [] && (if a[0] == b[0] then Subsequence(a[1..], b[1..]) else Subsequence(a, b[1..])))
  }

  predicate Distinct(s: seq<nat>) {
    forall i, j :: 0 <= i < j < |s| ==> s[i] != s[j]
  }

  lemma ReportAt(v: Vector, i: nat)
    requires Proper(v) && i < |v.entries|
    ensures Has(v.entries, v.entries[i].serial)
    ensures ReportFor(v.entries, v.entries[i].serial) == v.entries[i].revents
  {}

  /** No operation revives a removed entry or changes what was reported for one that stays. */
  lemma ApplyKeeps(v: Vector, op: Op, s: nat)
    requires Proper(v) && s < v.nextSerial
    ensures var v' := Apply(v, op);
      && Proper(v') && v.nextSerial <= v'.nextSerial
      && (Has(v'.entries, s) ==> Has(v.entries, s) && ReportFor(v'.entries, s) == ReportFor(v.entries, s))
  {
    var v' := Apply(v, op);
    match op {
      case Add(_, _, _) =>
      case SetEvents(polled, fd, events) =>
      case Remove(polled, fd) =>
        var i := Find(v.entries, polled, fd);
        if i < |v.entries| { ProperAfterRemove(v, i); }
    }
    assert Proper(v');
    if Has(v'.entries, s) {
      var k :| 0 <= k < |v'.entries| && v'.entries[k].serial == s;
      var j := OriginOf(v, op, k);
      ReportAt(v, j);
      ReportAt(v', k);
    }
  }

  /** Where an old entry of the changed vector was before. */
  lemma OriginOf(v: Vector, op: Op, k: nat) returns (j: nat)
    requires Proper(v) && k < |Apply(v, op).entries| && Apply(v, op).entries[k].serial < v.nextSerial
    ensures j < |v.entries| && v.entries[j].serial == Apply(v, op).entries[k].serial
    ensures v.entries[j].revents == Apply(v, op).entries[k].revents
  {
    match op
    case Remove(polled, fd) =>
      var i := Find(v.entries, polled, fd);
      j := if k < i then k else k + 1;
    case _ => j := k;
  }

  lemma {:induction false} ApplyAllKeeps(v: Vector, ops: seq<Op>, s: nat)
    requires Proper(v) && s < v.nextSerial
    ensures var v' := ApplyAll(v, ops);
      && Proper(v') && v.nextSerial <= v'.nextSerial
      && (Has(v'.entries, s) ==> Has(v.entries, s) && ReportFor(v'.entries, s) == ReportFor(v.entries, s))
    decreases |ops|
  {
    hide Proper, Has, ReportFor, Apply;
    if ops != [] {
      ApplyKeeps(v, ops[0], s);
      ApplyAllKeeps(Apply(v, ops[0]), ops[1..], s);
    }
  }

  lemma {:induction false} WalkVisits(todo: seq<nat>, v: Vector, cb: Callbacks, n: nat, s: nat)
    requires Proper(v) && s < v.nextSerial && Distinct(todo)
    ensures var r := Walk(todo, v, cb, n);
      && (s in r.visited ==> s in todo && Has(v.entries, s) && ReportFor(v.entries, s) != NOTHING)
      && (s in todo && s !in r.visited && Has(v.entries, s) && ReportFor(v.entries, s) != NOTHING ==>
            !Has(r.last.entries, s))
      && (!Has(v.entries, s) ==> !Has(r.last.entries, s))
    decreases |todo|
  {
    if todo != [] {
      var i := Where(v.entries, todo[0]);
      WhereHas(v.entries, todo[0]);
      assert todo == [todo[0]] + todo[1..];
      if i == |v.entries| || v.entries[i].revents == NOTHING {
        WalkVisits(todo[1..], v, cb, n, s);
      } else {
        var ops := cb(n, v.entries[i]);
        ApplyAllKeeps(v, ops, s);
        WalkVisits(todo[1..], ApplyAll(v, ops), cb, n + 1, s);
        hide Proper, Has, ReportFor, ApplyAll;
      }
    }
  }

  /** An entry is visited exactly if, when its turn comes, it is still registered and has something to report. */
  lemma {:induction false} WalkIsExact(todo: seq<nat>, v: Vector, cb: Callbacks, n: nat, i: nat)
    requires Proper(v) && Distinct(todo) && i < |todo| && todo[i] < v.nextSerial
    ensures var turn := Walk(todo[..i], v, cb, n).last.entries;
      && (todo[i] in Walk(todo, v, cb, n).visited <==>
            Has(turn, todo[i]) && ReportFor(v.entries, todo[i]) != NOTHING)
      && (Has(turn, todo[i]) ==>
            Has(v.entries, todo[i]) && ReportFor(turn, todo[i]) == ReportFor(v.entries, todo[i]))
    decreases |todo|
  {
    var k := Where(v.entries, todo[0]);
    WhereHas(v.entries, todo[0]);
    assert todo == [todo[0]] + todo[1..];
    var seen := k < |v.entries| && v.entries[k].revents != NOTHING;
    var v' := if seen then ApplyAll(v, cb(n, v.entries[k])) else v;
    var n' := if seen then n + 1 else n;
    if seen { ApplyAllKeeps(v, cb(n, v.entries[k]), todo[i]); }
    if i == 0 {
      assert todo[0] !in todo[1..];
      WalkVisits(todo[1..], v', cb, n', todo[0]);
    } else {
      assert todo[..i][1..] == todo[1..][..i - 1] && todo[..i][0] == todo[0];
      WalkIsExact(todo[1..], v', cb, n', i - 1);
    }
  }

  lemma {:induction false} WalkInOrder(todo: seq<nat>, v: Vector, cb: Callbacks, n: nat)
    ensures Subsequence(Walk(todo, v, cb, n).visited, todo)
    decreases |todo|
  {
    if todo != [] {
      var i := Where(v.entries, todo[0]);
      if i == |v.entries| || v.entries[i].revents == NOTHING {
        WalkInOrder(todo[1..], v, cb, n);
        SubsequenceGrows(Walk(todo[1..], v, cb, n).visited, todo);
      } else {
        WalkInOrder(todo[1..], ApplyAll(v, cb(n, v.entries[i])), cb, n + 1);
      }
    }
  }

  lemma {:induction false} SubsequenceGrows(a: seq<nat>, b: seq<nat>)
    requires b != [] && Subsequence(a, b[1..])
    ensures Subsequence(a, b)
  {
    if a != [] && a[0] == b[0] {
      SubsequenceTail(a, b[1..]);
    }
  }

  lemma {:induction false} SubsequenceTail(a: seq<nat>, b: seq<nat>)
    requires a != [] && Subsequence(a, b)
    ensures Subsequence(a[1..], b)
  {
    if a[0] == b[0] {
      SubsequenceGrows(a[1..], b);
    } else {
      SubsequenceTail(a, b[1..]);
      SubsequenceGrows(a[1..], b);
    }
  }

  /** One round over the entries `v`, whatever its callbacks do: the visited entries are originally
      registered ones, in their original order and each once; and an entry is visited if and only if it has
      something to report and no callback before its turn has removed it, for good. */
  lemma RoundIsExact(v: Vector, cb: Callbacks)
    requires Proper(v)
    ensures var es := Serials(v.entries);
      && Subsequence(Walk(es, v, cb, 0).visited, es)
      && (forall i :: 0 <= i < |v.entries| ==>
            (es[i] in Walk(es, v, cb, 0).visited <==>
               v.entries[i].revents != NOTHING && Has(Walk(es[..i], v, cb, 0).last.entries, es[i])))
      && (forall i :: 0 <= i < |v.entries| && v.entries[i].revents != NOTHING ==>
            es[i] in Walk(es, v, cb, 0).visited || !Has(Walk(es, v, cb, 0).last.entries, es[i]))
  {
    var es := Serials(v.entries);
    WalkInOrder(es, v, cb, 0);
    forall i | 0 <= i < |v.entries|
      ensures es[i] in Walk(es, v, cb, 0).visited <==>
                v.entries[i].revents != NOTHING && Has(Walk(es[..i], v, cb, 0).last.entries, es[i])
      ensures v.entries[i].revents != NOTHING ==>
                es[i] in Walk(es, v, cb, 0).visited || !Has(Walk(es, v, cb, 0).last.entries, es[i])
    {
      ReportAt(v, i);
      WalkIsExact(es, v, cb, 0, i);
      WalkVisits(es, v, cb, 0, es[i]);
    }
  }

  /** A distinct list's subsequences repeat nothing. */
  lemma {:induction false} SubsequenceOfDistinct(a: seq<nat>, b: seq<nat>)
    requires Subsequence(a, b) && Distinct(b)
    ensures Distinct(a) && forall x :: x in a ==> x in b
  {
    if a != [] {
      assert b == [b[0]] + b[1..];
      if a[0] == b[0] {
        SubsequenceOfDistinct(a[1..], b[1..]);
        assert a == [a[0]] + a[1..];
        assert a[0] !in b[1..];
      } else {
        SubsequenceOfDistinct(a, b[1..]);
      }
    }
  }
}
