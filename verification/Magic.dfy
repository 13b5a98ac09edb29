/** MagicStringDetector: the matcher that watches the pass-through stream for the remote end's greeting
    and for the login prompt. */
module Magic {
  import opened Wire

  /** "STDIO_TUNNEL MAGIC HANDSHAKE --" */
  function Greeting(): (m: seq<Byte>)
    ensures |m| == 31
  {
    [83, 84, 68, 73, 79, 95, 84, 85, 78, 78, 69, 76, 32, 77, 65, 71, 73, 67, 32,
     72, 65, 78, 68, 83, 72, 65, 75, 69, 32, 45, 45]
  }

  /** What is to be recognised, and whether there is a command to send when the login pattern appears. */
  datatype Wanted = Wanted(pattern: seq<Byte>, hasCommand: bool)

  /** m_recognized_count, m_recognized_login_count, whether startHandshaking has been called and how often
      remoteInit has been called. */
  datatype Scan = Scan(count: nat, login: nat, detected: bool, commands: nat)

  const START := Scan(0, 0, false, 0)

  predicate InRange(w: Wanted, s: Scan) {
    s.count <= |Greeting()| && s.login <= |w.pattern| && (s.count == |Greeting()| <==> s.detected)
  }

  function NextCount(count: nat, b: Byte): (c: nat)
    requires count < |Greeting()|
    ensures c <= |Greeting()|
  {
    if b == Greeting()[count] then count + 1 else 0
  }

  function NextLogin(w: Wanted, login: nat, b: Byte): (l: nat)
    requires login <= |w.pattern|
    ensures l <= |w.pattern|
  {
    if login < |w.pattern| then (if w.hasCommand && b == w.pattern[login] then login + 1 else 0) else login
  }

  /** One byte; after the first detection nothing is looked at any more. */
  function Feed(w: Wanted, s: Scan, b: Byte): (t: Scan)
    requires InRange(w, s)
    ensures InRange(w, t)
  {
    if s.detected then s
    else
      var count := NextCount(s.count, b);
      if count == |Greeting()| then s.(count := count, detected := true)
      else
        var login := NextLogin(w, s.login, b);
        Scan(count, login, false,
             if s.login < |w.pattern| && login == |w.pattern| then s.commands + 1 else s.commands)
  }

  function FeedAll(w: Wanted, s: Scan, bs: seq<Byte>): (t: Scan)
    requires InRange(w, s)
    ensures InRange(w, t)
    decreases |bs|
  {
    if bs == [] then s else FeedAll(w, Feed(w, s, bs[0]), bs[1..])
  }

  class MagicStringDetector {
    const wanted: Wanted
    var recognizedCount: nat
    var recognizedLoginCount: nat
    /** Calls of startHandshaking and remoteInit, which are not part of this model. */
    var handshaking: bool
    var commandsSent: nat

    function View(): Scan
      reads this
    {
      Scan(recognizedCount, recognizedLoginCount, handshaking, commandsSent)
    }

    constructor (loginPattern: seq<Byte>, hasCommand: bool)
      ensures View() == START && wanted == Wanted(loginPattern, hasCommand) && InRange(wanted, View())
    {
      wanted := Wanted(loginPattern, hasCommand);
      recognizedCount, recognizedLoginCount, handshaking, commandsSent := 0, 0, false, 0;
    }

    method ProcessReadData(buffer: seq<Byte>)
      requires InRange(wanted, View()) && !handshaking
      modifies this
      ensures InRange(wanted, View()) && View() == FeedAll(wanted, old(View()), buffer)
    {
      for i := 0 to |buffer|
        invariant InRange(wanted, View()) && !handshaking
        invariant FeedAll(wanted, View(), buffer[i..]) == FeedAll(wanted, old(View()), buffer)
      {
        hide Feed, Greeting;
        assert buffer[i..][1..] == buffer[i + 1..] && buffer[i..][0] == buffer[i];
        Match(buffer[i]);
        if handshaking {
          DetectedStays(wanted, View(), buffer[i + 1..]);
          return;
        }
      }
    }

    /** One byte. */
    method Match(b: Byte)
      requires InRange(wanted, View()) && !handshaking
      modifies this
      ensures InRange(wanted, View()) && View() == Feed(wanted, old(View()), b)
    {
      if b == Greeting()[recognizedCount] {
        recognizedCount := recognizedCount + 1;
        if recognizedCount >= |Greeting()| {
          handshaking := true;
          return;
        }
      } else {
        recognizedCount := 0;
      }
      if wanted.hasCommand && recognizedLoginCount < |wanted.pattern| && b == wanted.pattern[recognizedLoginCount] {
        recognizedLoginCount := recognizedLoginCount + 1;
        if recognizedLoginCount >= |wanted.pattern| {
          commandsSent := commandsSent + 1;
        }
      } else if recognizedLoginCount < |wanted.pattern| {
        recognizedLoginCount := 0;
      }
    }
  }

  lemma {:induction false} DetectedStays(w: Wanted, s: Scan, bs: seq<Byte>)
    requires InRange(w, s) && s.detected
    ensures FeedAll(w, s, bs) == s
    decreases |bs|
  {
    if bs != [] {
      DetectedStays(w, s, bs[1..]);
    }
  }

  // ---------------------------------------------------------------- chunking

  /** How the input is cut into chunks makes no difference. */
  lemma {:induction false} ChunksJoin(w: Wanted, s: Scan, a: seq<Byte>, b: seq<Byte>)
    requires InRange(w, s)
    ensures FeedAll(w, s, a + b) == FeedAll(w, FeedAll(w, s, a), b)
    decreases |a|
  {
    hide Feed;
    if a == [] {
      assert a + b == b;
    } else {
      ChunksJoin(w, Feed(w, s, a[0]), a[1..], b);
      assert (a + b)[1..] == a[1..] + b && (a + b)[0] == a[0];
    }
  }

  // ---------------------------------------------------------------- soundness

  predicate EndsWith(bs: seq<Byte>, tail: seq<Byte>) {
    |tail| <= |bs| && bs[|bs| - |tail|..] == tail
  }

  lemma OneMore(bs: seq<Byte>, b: Byte, text: seq<Byte>, k: nat)
    requires k < |text| && EndsWith(bs, text[..k]) && b == text[k]
    ensures EndsWith(bs + [b], text[..k + 1])
  {}

  /** The last m_recognized_count bytes seen are always that much of the magic string, and the login
      counter is sound in the same way. So the greeting is recognised, and the command sent, only after
      the whole of the greeting, or of the login pattern, has been seen. */
  lemma {:induction false} CountIsPrefix(w: Wanted, bs: seq<Byte>)
    ensures Sound(w, FeedAll(w, START, bs), bs)
    ensures FeedAll(w, START, bs).detected ==> Seen(bs, Greeting())
    ensures FeedAll(w, START, bs).commands > 0 ==> Seen(bs, w.pattern)
    decreases |bs|
  {
    hide Greeting, Sound, Seen, EndsWith, Feed, InRange;
    SoundAtStart(w);
    if bs != [] {
      var n := |bs| - 1;
      var before, b := bs[..n], bs[n];
      assert bs == before + [b];
      CountIsPrefix(w, before);
      LastByte(w, before, b);
      StaysSound(w, FeedAll(w, START, before), before, b);
      if Seen(before, Greeting()) || EndsWith(bs, Greeting()) { SeenStays(before, b, Greeting()); }
      if Seen(before, w.pattern) || EndsWith(bs, w.pattern) { SeenStays(before, b, w.pattern); }
    }
  }

  lemma SoundAtStart(w: Wanted)
    ensures InRange(w, START) && Sound(w, START, [])
  {}

  lemma LastByte(w: Wanted, before: seq<Byte>, b: Byte)
    ensures FeedAll(w, START, before + [b]) == Feed(w, FeedAll(w, START, before), b)
  {
    ChunksJoin(w, START, before, [b]);
    var s := FeedAll(w, START, before);
    assert FeedAll(w, s, [b]) == FeedAll(w, Feed(w, s, b), [b][1..]);
  }

  /** The counters are sound for what has been read so far. */
  predicate Sound(w: Wanted, s: Scan, bs: seq<Byte>)
    requires InRange(w, s)
  {
    !s.detected ==>
      EndsWith(bs, Greeting()[..s.count]) && (s.login < |w.pattern| ==> EndsWith(bs, w.pattern[..s.login]))
  }

  predicate Seen(bs: seq<Byte>, text: seq<Byte>) {
    exists n :: 0 <= n <= |bs| && EndsWith(bs[..n], text)
  }

  lemma SeenStays(bs: seq<Byte>, b: Byte, text: seq<Byte>)
    requires Seen(bs, text) || EndsWith(bs + [b], text)
    ensures Seen(bs + [b], text)
  {
    if Seen(bs, text) {
      var n :| 0 <= n <= |bs| && EndsWith(bs[..n], text);
      assert (bs + [b])[..n] == bs[..n];
    } else {
      assert (bs + [b])[..|bs| + 1] == bs + [b];
    }
  }

  lemma StaysSound(w: Wanted, s: Scan, bs: seq<Byte>, b: Byte)
    requires InRange(w, s) && Sound(w, s, bs)
    ensures Sound(w, Feed(w, s, b), bs + [b])
    ensures !s.detected && Feed(w, s, b).detected ==> EndsWith(bs + [b], Greeting())
    ensures Feed(w, s, b).commands > s.commands ==> EndsWith(bs + [b], w.pattern)
  {
    hide Greeting;
    if !s.detected {
      if b == Greeting()[s.count] { OneMore(bs, b, Greeting(), s.count); }
      if s.login < |w.pattern| && b == w.pattern[s.login] { OneMore(bs, b, w.pattern, s.login); }
      hide EndsWith;
      assert Greeting()[..31] == Greeting() && w.pattern[..|w.pattern|] == w.pattern;
      NothingYet(bs + [b], Greeting());
      NothingYet(bs + [b], w.pattern);
    }
  }

  lemma NothingYet(bs: seq<Byte>, text: seq<Byte>)
    ensures EndsWith(bs, text[..0])
  {}

  /** The command is sent at most once, and exactly when the whole login pattern has been counted. */
  lemma {:induction false} CommandOnlyOnce(w: Wanted, bs: seq<Byte>)
    ensures var s := FeedAll(w, START, bs);
      s.commands == if |w.pattern| > 0 && s.login == |w.pattern| then 1 else 0
    decreases |bs|
  {
    if bs != [] {
      var n := |bs| - 1;
      assert bs == bs[..n] + [bs[n]];
      CommandOnlyOnce(w, bs[..n]);
      LastByte(w, bs[..n], bs[n]);
    }
  }

  /** Without a remote command nothing is ever sent. */
  lemma {:induction false} NoCommandNever(w: Wanted, s: Scan, bs: seq<Byte>)
    requires InRange(w, s) && !w.hasCommand
    ensures FeedAll(w, s, bs).commands == s.commands
    decreases |bs|
  {
    hide Greeting;
    if bs != [] {
      NoCommandNever(w, Feed(w, s, bs[0]), bs[1..]);
    }
  }

  /** Read from a zero counter, and unless the greeting ends on the way, the login pattern is counted byte by byte,
      and the command is sent at its last byte and not before. */
  lemma {:induction false} LoginCountsUp(w: Wanted, s: Scan, k: nat)
    requires InRange(w, s) && w.hasCommand && s.login == 0 && 0 < |w.pattern| && k <= |w.pattern|
    requires !FeedAll(w, s, w.pattern[..k]).detected
    ensures FeedAll(w, s, w.pattern[..k]).login == k
    ensures FeedAll(w, s, w.pattern[..k]).commands == if k < |w.pattern| then s.commands else s.commands + 1
  {
    hide Greeting, InRange;
    if k > 0 {
      var before, b := w.pattern[..k - 1], w.pattern[k - 1];
      var t := FeedAll(w, s, before);
      assert w.pattern[..k] == before + [b];
      ChunksJoin(w, s, before, [b]);
      if t.detected { DetectedStays(w, t, [b]); }
      LoginCountsUp(w, s, k - 1);
      assert FeedAll(w, t, [b]) == FeedAll(w, Feed(w, t, b), []);
    }
  }

  /** So after whatever has left the login counter at zero, the login pattern makes the command be sent, once, unless
      the greeting has been recognised by then. */
  lemma CommandAtPattern(w: Wanted, noise: seq<Byte>, rest: seq<Byte>)
    requires w.hasCommand && 0 < |w.pattern| && FeedAll(w, START, noise).login == 0
    requires !FeedAll(w, START, noise + w.pattern).detected
    ensures FeedAll(w, START, noise).commands == 0
    ensures FeedAll(w, START, noise + w.pattern).commands == 1
    ensures FeedAll(w, START, noise + w.pattern + rest).commands == 1
  {
    hide Greeting, Feed;
    var s := FeedAll(w, START, noise);
    ChunksJoin(w, START, noise, w.pattern);
    assert w.pattern[..|w.pattern|] == w.pattern;
    LoginCountsUp(w, s, |w.pattern|);
    CommandOnlyOnce(w, noise);
    ChunksJoin(w, START, noise + w.pattern, rest);
    LoginStays(w, FeedAll(w, START, noise + w.pattern), rest);
  }

  lemma {:induction false} LoginStays(w: Wanted, s: Scan, bs: seq<Byte>)
    requires InRange(w, s) && s.login == |w.pattern|
    ensures FeedAll(w, s, bs).login == s.login && FeedAll(w, s, bs).commands == s.commands
    decreases |bs|
  {
    hide Greeting;
    if bs != [] {
      LoginStays(w, Feed(w, s, bs[0]), bs[1..]);
    }
  }

  // ---------------------------------------------------------------- completeness

  /** Read from a zero counter, the magic string is detected at its last byte and not before. */
  lemma {:induction false} CountsUp(w: Wanted, s: Scan, k: nat)
    requires InRange(w, s) && !s.detected && s.count == 0 && k <= 31
    ensures FeedAll(w, s, Greeting()[..k]).count == k
    ensures FeedAll(w, s, Greeting()[..k]).detected <==> k == |Greeting()|
  {
    if k > 0 {
      CountsUp(w, s, k - 1);
      var t := FeedAll(w, s, Greeting()[..k - 1]);
      assert Greeting()[..k] == Greeting()[..k - 1] + [Greeting()[k - 1]];
      ChunksJoin(w, s, Greeting()[..k - 1], [Greeting()[k - 1]]);
      assert FeedAll(w, t, [Greeting()[k - 1]]) == FeedAll(w, Feed(w, t, Greeting()[k - 1]), []);
    }
  }

  /** Bytes that cannot start the magic string leave a zero counter at zero. */
  lemma {:induction false} NoStart(w: Wanted, s: Scan, bs: seq<Byte>)
    requires InRange(w, s) && s.count == 0 && Greeting()[0] !in bs
    ensures FeedAll(w, s, bs).count == 0
    decreases |bs|
  {
    if bs != [] {
      NoStart(w, Feed(w, s, bs[0]), bs[1..]);
    }
  }

  /** Read from any other counter, the magic string is missed: the byte that breaks the current match is
      not tried as the first byte of a new one. The counter is zero again afterwards. */
  lemma MissedOccurrence(w: Wanted, s: Scan)
    requires InRange(w, s) && !s.detected && s.count > 0
    ensures FeedAll(w, s, Greeting()).count == 0
  {
    var head, middle, again, rest := Greeting()[..2], Greeting()[2..23], Greeting()[23..25], Greeting()[25..];
    GreetingParts();
    hide Greeting, InRange;
    assert Greeting() == head + (middle + (again + rest));
    ChunksJoin(w, s, head, middle + (again + rest));
    TwoBytes(w, s, head);
    var t := FeedAll(w, s, head);
    ChunksJoin(w, t, middle, again + rest);
    NoStart(w, t, middle);
    var u := FeedAll(w, t, middle);
    ChunksJoin(w, u, again, rest);
    TwoBytes(w, u, again);
    NoStart(w, FeedAll(w, u, again), rest);
  }

  /** The letter S stands at places 0 and 23 of the greeting only. */
  lemma GreetingParts()
    ensures Greeting()[0] == 83 && Greeting()[..2] == [83, 84] && Greeting()[23..25] == [83, 72]
    ensures 83 !in Greeting()[2..23] && 83 !in Greeting()[25..]
  {}

  /** "ST" after part of the magic string, and "SH" at its start, both end at zero. */
  lemma TwoBytes(w: Wanted, s: Scan, bs: seq<Byte>)
    requires InRange(w, s) && !s.detected
    requires (bs == [83, 84] && s.count > 0) || (bs == [83, 72] && s.count == 0)
    ensures FeedAll(w, s, bs).count == 0
  {
    assert bs[1..] == [bs[1]];
    assert FeedAll(w, s, bs) == FeedAll(w, Feed(w, s, bs[0]), [bs[1]]);
    var t := Feed(w, s, bs[0]);
    assert FeedAll(w, t, [bs[1]]) == FeedAll(w, Feed(w, t, bs[1]), []);
  }

  /** The greeting after any noise that is no greeting itself: it is recognised, at its very last byte,
      exactly when the noise has left the counter at zero. */
  lemma GreetingAfterNoise(w: Wanted, noise: seq<Byte>)
    requires !FeedAll(w, START, noise).detected
    ensures FeedAll(w, START, noise + Greeting()).detected <==> FeedAll(w, START, noise).count == 0
    ensures forall k :: 0 <= k < 31 ==> !FeedAll(w, START, noise + Greeting()[..k]).detected
  {
    hide Greeting, Feed;
    var s := FeedAll(w, START, noise);
    ChunksJoin(w, START, noise, Greeting());
    assert Greeting()[..31] == Greeting();
    if s.count == 0 { CountsUp(w, s, 31); } else { MissedOccurrence(w, s); }
    forall k | 0 <= k < 31 ensures !FeedAll(w, START, noise + Greeting()[..k]).detected {
      NotYet(w, noise, k);
    }
  }

  lemma NotYet(w: Wanted, noise: seq<Byte>, k: nat)
    requires !FeedAll(w, START, noise).detected && k < 31
    ensures !FeedAll(w, START, noise + Greeting()[..k]).detected
  {
    hide Greeting, Feed;
    ChunksJoin(w, START, noise, Greeting()[..k]);
    hide FeedAll;
    NotBeforeEnd(w, FeedAll(w, START, noise), k);
  }

  lemma NotBeforeEnd(w: Wanted, s: Scan, k: nat)
    requires InRange(w, s) && !s.detected && k < 31
    ensures !FeedAll(w, s, Greeting()[..k]).detected
  {
    hide Greeting, Feed, FeedAll;
    if s.count == 0 {
      CountsUp(w, s, k);
    } else {
      MissedOccurrence(w, s);
      ChunksJoin(w, s, Greeting()[..k], Greeting()[k..]);
      assert Greeting()[..k] + Greeting()[k..] == Greeting();
      var t := FeedAll(w, s, Greeting()[..k]);
      if t.detected { DetectedStays(w, t, Greeting()[k..]); }
    }
  }

  /** Noise that ends in no proper beginning of the magic string is harmless. */
  lemma CleanNoiseIsHarmless(w: Wanted, noise: seq<Byte>)
    requires !FeedAll(w, START, noise).detected
    requires forall k :: 0 < k < |Greeting()| ==> !EndsWith(noise, Greeting()[..k])
    ensures FeedAll(w, START, noise).count == 0 && FeedAll(w, START, noise + Greeting()).detected
  {
    hide Greeting, FeedAll, EndsWith;
    CountIsPrefix(w, noise);
    GreetingAfterNoise(w, noise);
  }

  /** Noise that ends in a byte foreign to the magic string, such as a line end, is harmless. */
  lemma LineEndResets(w: Wanted, noise: seq<Byte>, b: Byte)
    requires !FeedAll(w, START, noise + [b]).detected && b !in Greeting()
    ensures FeedAll(w, START, noise + [b]).count == 0
  {
    hide Greeting;
    LastByte(w, noise, b);
  }

  /** One letter S in front of the greeting hides it. */
  lemma SHidesGreeting(w: Wanted)
    ensures EndsWith([83] + Greeting(), Greeting()) && !FeedAll(w, START, [83] + Greeting()).detected
  {
    LastByte(w, [], 83);
    assert [] + [83 as Byte] == [83];
    GreetingAfterNoise(w, [83]);
  }
}
