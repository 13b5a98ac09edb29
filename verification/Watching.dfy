/** What the Poller knows about one object and descriptor. */
module Watching {
  import opened Wire
  import opened Polling

  /** Armed events and last report of the entry for that object and descriptor. */
  datatype Watch = Watch(events: Events, revents: Events)

  function Watched(es: seq<Node>, o: object, fd: int): Option<Watch> {
    var i := Find(es, o, fd);
    if i < |es| then Some(Watch(es[i].events, es[i].revents)) else None
  }

  predicate Matches(n: Node, o: object, fd: int) {
    n.polled == o && n.fd == fd
  }

  /** No entry for that object. */
  predicate Absent(es: seq<Node>, o: object) {
    forall i :: 0 <= i < |es| ==> es[i].polled != o
  }

  /** The object has at most one entry, and that at its own descriptor. */
  predicate Once(es: seq<Node>, o: object, fd: int) {
    && (forall i :: 0 <= i < |es| && es[i].polled == o ==> es[i].fd == fd)
    && (forall i, j :: 0 <= i < j < |es| ==> !(es[i].polled == o && es[j].polled == o))
  }

  lemma UnwatchedIsAbsent(es: seq<Node>, o: object, fd: int)
    requires Once(es, o, fd) && Watched(es, o, fd) == None
    ensures Absent(es, o)
  {
    assert Find(es, o, fd) == |es|;
  }

  /** The entries of all objects but these two. */
  function Others(es: seq<Node>, a: object, b: object): seq<Node> {
    if es == [] then []
    else (if es[0].polled == a || es[0].polled == b then [] else [es[0]]) + Others(es[1..], a, b)
  }

  /** Whoever is neither a nor b is watched as the other entries say. */
  lemma {:induction false} WatchedAmongOthers(es: seq<Node>, a: object, b: object, o: object, fd: int)
    requires o != a && o != b
    ensures Watched(es, o, fd) == Watched(Others(es, a, b), o, fd)
  {
    if es != [] {
      WatchedAmongOthers(es[1..], a, b, o, fd);
      WatchedTail(es, o, fd);
      if es[0].polled != a && es[0].polled != b {
        WatchedTail(Others(es, a, b), o, fd);
        assert Others(es, a, b)[1..] == Others(es[1..], a, b);
      } else {
        assert Others(es, a, b) == Others(es[1..], a, b);
      }
    }
  }

  lemma WatchedTail(es: seq<Node>, o: object, fd: int)
    requires es != []
    ensures Watched(es, o, fd)
            == if Matches(es[0], o, fd) then Some(Watch(es[0].events, es[0].revents)) else Watched(es[1..], o, fd)
  {}

  /** Entries of objects other than a and b are the ones among the others. */
  lemma {:induction false} AmongOthers(es: seq<Node>, a: object, b: object, n: Node)
    requires n.polled != a && n.polled != b
    ensures n in es <==> n in Others(es, a, b)
  {
    if es != [] {
      AmongOthers(es[1..], a, b, n);
      assert es == [es[0]] + es[1..];
    }
  }

  lemma {:induction false} AbsentAmongOthers(es: seq<Node>, a: object, b: object, o: object)
    requires o != a && o != b
    ensures Absent(es, o) <==> Absent(Others(es, a, b), o)
  {
    if es != [] {
      AbsentAmongOthers(es[1..], a, b, o);
      AbsentTail(es, o);
      if es[0].polled != a && es[0].polled != b {
        AbsentTail(Others(es, a, b), o);
        assert Others(es, a, b)[1..] == Others(es[1..], a, b);
      } else {
        assert Others(es, a, b) == Others(es[1..], a, b);
      }
    }
  }

  lemma AbsentTail(es: seq<Node>, o: object)
    requires es != []
    ensures Absent(es, o) <==> es[0].polled != o && Absent(es[1..], o)
  {
    assert es == [es[0]] + es[1..];
  }

  lemma {:induction false} OnceAmongOthers(es: seq<Node>, a: object, b: object, o: object, fd: int)
    requires o != a && o != b
    ensures Once(es, o, fd) <==> Once(Others(es, a, b), o, fd)
  {
    if es != [] {
      OnceAmongOthers(es[1..], a, b, o, fd);
      OnceTail(es, o, fd);
      if es[0].polled != a && es[0].polled != b {
        OnceTail(Others(es, a, b), o, fd);
        AbsentAmongOthers(es[1..], a, b, o);
        assert Others(es, a, b)[1..] == Others(es[1..], a, b);
      } else {
        assert Others(es, a, b) == Others(es[1..], a, b);
      }
    }
  }

  lemma OnceTail(es: seq<Node>, o: object, fd: int)
    requires es != []
    ensures Once(es, o, fd)
            <==> Once(es[1..], o, fd) && (es[0].polled == o ==> es[0].fd == fd && Absent(es[1..], o))
  {
    if Once(es[1..], o, fd) && (es[0].polled == o ==> es[0].fd == fd && Absent(es[1..], o)) {
      forall i, j | 0 <= i < j < |es| ensures !(es[i].polled == o && es[j].polled == o) {
        assert es[j] == es[1..][j - 1];
        if i > 0 { assert es[i] == es[1..][i - 1]; }
      }
      forall i | 0 <= i < |es| && es[i].polled == o ensures es[i].fd == fd {
        if i > 0 { assert es[i] == es[1..][i - 1]; }
      }
    }
    assert forall k :: 0 <= k < |es[1..]| ==> es[1..][k] == es[k + 1];
  }

  lemma {:induction false} OthersAppend(x: seq<Node>, y: seq<Node>, a: object, b: object)
    ensures Others(x + y, a, b) == Others(x, a, b) + Others(y, a, b)
  {
    if x == [] {
      assert x + y == y;
    } else {
      OthersAppend(x[1..], y, a, b);
      assert (x + y)[1..] == x[1..] + y && (x + y)[0] == x[0];
      var h := if x[0].polled == a || x[0].polled == b then [] else [x[0]];
      var p, q := Others(x[1..], a, b), Others(y, a, b);
      assert h + (p + q) == (h + p) + q;
    }
  }

  lemma OthersAt(es: seq<Node>, i: nat, a: object, b: object)
    requires i < |es| && (es[i].polled == a || es[i].polled == b)
    ensures Others(es, a, b) == Others(es[..i], a, b) + Others(es[i + 1..], a, b)
  {
    assert es == es[..i] + ([es[i]] + es[i + 1..]);
    OthersAppend(es[..i], [es[i]] + es[i + 1..], a, b);
    assert Others([es[i]] + es[i + 1..], a, b) == Others(es[i + 1..], a, b);
  }

  /** Arming an entry. */
  lemma AfterSet(es: seq<Node>, o: object, fd: int, e: Events, a: object, b: object)
    requires o == a || o == b
    ensures var es' := WithEvents(es, o, fd, e);
      && Others(es', a, b) == Others(es, a, b)
      && Watched(es', o, fd) == (match Watched(es, o, fd) case None => None case Some(w) => Some(w.(events := e)))
      && (Once(es, o, fd) ==> Once(es', o, fd))
  {
    var es' := WithEvents(es, o, fd, e);
    var i := Find(es, o, fd);
    if i < |es| {
      OthersAt(es, i, a, b);
      OthersAt(es', i, a, b);
      assert es'[..i] == es[..i] && es'[i + 1..] == es[i + 1..];
      FindIs(es', o, fd, i);
    }
    assert forall k :: 0 <= k < |es| ==> es'[k].polled == es[k].polled && es'[k].fd == es[k].fd;
  }

  /** poll() has written its answers into all entries. */
  lemma AfterReport(es: seq<Node>, answer: nat -> Events, o: object, fd: int)
    ensures var es' := Reported(es, answer);
      && Watched(es', o, fd) == (match Watched(es, o, fd)
                                 case None => None
                                 case Some(w) => Some(w.(revents := answer(Find(es, o, fd)))))
      && (Once(es', o, fd) <==> Once(es, o, fd))
  {
    var es', i := Reported(es, answer), Find(es, o, fd);
    assert forall k :: 0 <= k < |es| ==> es'[k].polled == es[k].polled && es'[k].fd == es[k].fd;
    if i < |es| { FindIs(es', o, fd, i); } else { assert Find(es', o, fd) == |es|; }
  }

  lemma FindIs(es: seq<Node>, o: object, fd: int, i: nat)
    requires i < |es| && Matches(es[i], o, fd) && forall k :: 0 <= k < i ==> !Matches(es[k], o, fd)
    ensures Find(es, o, fd) == i
  {}

  /** Arming one entry leaves every other one alone. */
  lemma SetElsewhere(es: seq<Node>, o: object, fd: int, e: Events, o': object, fd': int)
    requires o' != o
    ensures Watched(WithEvents(es, o, fd, e), o', fd') == Watched(es, o', fd')
    ensures Once(WithEvents(es, o, fd, e), o', fd') <==> Once(es, o', fd')
  {
    AfterSet(es, o, fd, e, o, o);
    WatchedAmongOthers(es, o, o, o', fd');
    WatchedAmongOthers(WithEvents(es, o, fd, e), o, o, o', fd');
    OnceAmongOthers(es, o, o, o', fd');
    OnceAmongOthers(WithEvents(es, o, fd, e), o, o, o', fd');
  }

  /** Removing an entry that occurs once. */
  lemma AfterRemove(es: seq<Node>, o: object, fd: int, a: object, b: object)
    requires (o == a || o == b) && Once(es, o, fd)
    ensures var es' := Without(es, o, fd);
      Others(es', a, b) == Others(es, a, b) && Watched(es', o, fd) == None && Once(es', o, fd)
  {
    var i := Find(es, o, fd);
    var es' := Without(es, o, fd);
    if i < |es| {
      OthersAt(es, i, a, b);
      OthersAppend(es[..i], es[i + 1..], a, b);
      assert Matches(es[i], o, fd);
      assert forall k :: 0 <= k < |es'| ==> es'[k] == if k < i then es[k] else es[k + 1];
      assert forall k :: 0 <= k < |es'| ==> !Matches(es'[k], o, fd);
    }
  }

  /** Adding an entry for an object not watched yet. */
  lemma AfterAdd(es: seq<Node>, n: Node, a: object, b: object)
    requires (n.polled == a || n.polled == b) && Absent(es, n.polled)
    ensures var es' := es + [n];
      && Others(es', a, b) == Others(es, a, b)
      && Watched(es', n.polled, n.fd) == Some(Watch(n.events, n.revents)) && Once(es', n.polled, n.fd)
  {
    OthersAppend(es, [n], a, b);
    assert Others([n], a, b) == [];
    FindIs(es + [n], n.polled, n.fd, |es|);
  }

  /** An object other than a and b is watched alike wherever the other entries agree. */
  lemma WatchedAlike(es: seq<Node>, es': seq<Node>, a: object, b: object, o: object, fd: int)
    requires o != a && o != b && Others(es, a, b) == Others(es', a, b)
    ensures Watched(es, o, fd) == Watched(es', o, fd) && (Once(es, o, fd) <==> Once(es', o, fd))
  {
    WatchedAmongOthers(es, a, b, o, fd);
    WatchedAmongOthers(es', a, b, o, fd);
    OnceAmongOthers(es, a, b, o, fd);
    OnceAmongOthers(es', a, b, o, fd);
  }

  lemma {:induction false} OthersTwice(es: seq<Node>, a: object, b: object)
    ensures Others(Others(es, b, b), a, b) == Others(es, a, b)
  {
    if es != [] {
      OthersTwice(es[1..], a, b);
      if es[0].polled != b {
        assert Others(es, b, b)[1..] == Others(es[1..], b, b);
      } else {
        assert Others(es, b, b) == Others(es[1..], b, b);
      }
    }
  }
}
