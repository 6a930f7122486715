/** What `WebSocketManager.broadcast` guarantees, stated on `SweepFrom` (one
    broadcast) and `BroadcastAll` (a series of them). */
module BroadcastProperties {
  import opened Lists
  import opened Events
  import opened Connections

  /** The send outcomes follow the oracle: a send fails exactly when its peer is
      gone. */
  lemma {:induction false} SweepOutcomes(conns: seq<Socket>, i: nat, failing: set<Socket>)
    ensures forall a :: a in SweepFrom(conns, i, failing).attempts ==> (a.ok <==> a.socket !in failing)
    decreases |conns| - i
  {
    if i < |conns| {
      var c := conns[i];
      var rest := SweepFrom(if c in failing then RemoveFirst(conns, c) else conns, i + 1, failing);
      SweepOutcomes(if c in failing then RemoveFirst(conns, c) else conns, i + 1, failing);
      var r := SweepFrom(conns, i, failing);
      assert r.attempts == [Attempt(c, c !in failing)] + rest.attempts;
    }
  }

  /** The list only loses entries, keeps the order of the others, and loses
      exactly one entry per failed send. */
  lemma SweepConserves(conns: seq<Socket>, i: nat, failing: set<Socket>)
    ensures var r := SweepFrom(conns, i, failing);
            && IsSubseq(r.survivors, conns)
            && multiset(r.survivors) + multiset(Failed(r.attempts)) == multiset(conns)
  {
    SweepKeepsOrder(conns, i, failing);
    SweepCounts(conns, i, failing);
  }

  /** The survivors are a subsequence of the list. */
  lemma {:induction false} SweepKeepsOrder(conns: seq<Socket>, i: nat, failing: set<Socket>)
    ensures IsSubseq(SweepFrom(conns, i, failing).survivors, conns)
    decreases |conns| - i
  {
    if i >= |conns| {
      SubseqRefl(conns);
    } else {
      var c := conns[i];
      var next := if c in failing then RemoveFirst(conns, c) else conns;
      SweepKeepsOrder(next, i + 1, failing);
      if c in failing {
        RemoveFirstSubseq(conns, c);
        SubseqTrans(SweepFrom(next, i + 1, failing).survivors, next, conns);
      }
    }
  }

  /** The survivors and the failed sockets together are the list, as a multiset. */
  lemma {:induction false} SweepCounts(conns: seq<Socket>, i: nat, failing: set<Socket>)
    ensures var r := SweepFrom(conns, i, failing);
            multiset(r.survivors) + multiset(Failed(r.attempts)) == multiset(conns)
    decreases |conns| - i
  {
    if i < |conns| {
      var c := conns[i];
      var next := if c in failing then RemoveFirst(conns, c) else conns;
      SweepCounts(next, i + 1, failing);
      SweepCountsStep(conns, i, failing);
    } else {
      assert SweepFrom(conns, i, failing) == Sweep(conns, []);
      assert Failed([]) == [];
    }
  }

  /** The inductive step of SweepCounts: if the count holds from the next
      position on the list the first step leaves, it holds from `i`. */
  lemma SweepCountsStep(conns: seq<Socket>, i: nat, failing: set<Socket>)
    requires i < |conns|
    requires var c := conns[i];
             var next := if c in failing then RemoveFirst(conns, c) else conns;
             var rest := SweepFrom(next, i + 1, failing);
             multiset(rest.survivors) + multiset(Failed(rest.attempts)) == multiset(next)
    ensures var r := SweepFrom(conns, i, failing);
            multiset(r.survivors) + multiset(Failed(r.attempts)) == multiset(conns)
  {
    var c := conns[i];
    var next := if c in failing then RemoveFirst(conns, c) else conns;
    var rest := SweepFrom(next, i + 1, failing);
    var r := SweepFrom(conns, i, failing);
    var lost: multiset<Socket> := if c in failing then multiset{c} else multiset{};
    SweepFailedStep(conns, i, failing);
    assert multiset(next) + lost == multiset(conns) by {
      if c in failing {
        RemoveFirstMultiset(conns, c);
        assert c in multiset(conns);
      }
    }
    AddUp(multiset(rest.survivors), multiset(Failed(r.attempts)), multiset(Failed(rest.attempts)),
          lost, multiset(next), multiset(conns));
  }

  /** Multiset bookkeeping for one step of a sweep: the survivors `s`, the
      failures `f` (those `lost` now and `rest` later) add up to `whole`. */
  lemma AddUp<T>(s: multiset<T>, f: multiset<T>, rest: multiset<T>, lost: multiset<T>,
                 next: multiset<T>, whole: multiset<T>)
    requires f == lost + rest && s + rest == next && next + lost == whole
    ensures s + f == whole
  {
  }

  /** One step of a sweep, seen through its survivors and failed sockets. */
  lemma SweepFailedStep(conns: seq<Socket>, i: nat, failing: set<Socket>)
    requires i < |conns|
    ensures var c := conns[i];
            var rest := SweepFrom(if c in failing then RemoveFirst(conns, c) else conns, i + 1, failing);
            var r := SweepFrom(conns, i, failing);
            && r.survivors == rest.survivors
            && multiset(Failed(r.attempts))
               == (if c in failing then multiset{c} else multiset{}) + multiset(Failed(rest.attempts))
  {
    var c := conns[i];
    var rest := SweepFrom(if c in failing then RemoveFirst(conns, c) else conns, i + 1, failing);
    var r := SweepFrom(conns, i, failing);
    assert r.attempts == [Attempt(c, c !in failing)] + rest.attempts;
    assert r.attempts[1..] == rest.attempts;
    assert Failed(r.attempts) == (if c in failing then [c] else []) + Failed(rest.attempts);
  }

  /** Every failed send is also a tried send. */
  lemma {:induction false} FailedAreTried(attempts: seq<Attempt>)
    ensures multiset(Failed(attempts)) <= multiset(Sockets(attempts))
  {
    if attempts != [] {
      FailedAreTried(attempts[1..]);
      assert Sockets(attempts) == [attempts[0].socket] + Sockets(attempts[1..]);
    }
  }

  /** The sends are tried in list order, each entry at most once, and only
      entries from position `i` on. */
  lemma {:induction false} SweepTriesInOrder(conns: seq<Socket>, i: nat, failing: set<Socket>)
    requires i <= |conns|
    ensures IsSubseq(Sockets(SweepFrom(conns, i, failing).attempts), conns[i..])
    decreases |conns| - i
  {
    var r := SweepFrom(conns, i, failing);
    if i == |conns| {
      assert Sockets(r.attempts) == [];
    } else {
      var c := conns[i];
      var next := if c in failing then RemoveFirst(conns, c) else conns;
      var rest := SweepFrom(next, i + 1, failing);
      assert r.attempts == [Attempt(c, c !in failing)] + rest.attempts;
      assert Sockets(r.attempts) == [c] + Sockets(rest.attempts);
      assert conns[i..] == [c] + conns[i + 1..];
      if c !in failing {
        SweepTriesInOrder(conns, i + 1, failing);
      } else if i + 1 <= |next| {
        SweepTriesInOrder(next, i + 1, failing);
        RemoveFirstSuffix(conns, c, i);
        assert next[i + 1..] == next[i..][1..];
        SubseqOfTail(next[i + 1..], conns[i + 1..]);
        SubseqTrans(Sockets(rest.attempts), next[i + 1..], conns[i + 1..]);
      } else {
        assert rest.attempts == [];
      }
      SubseqCons(c, Sockets(rest.attempts), conns[i + 1..]);
    }
  }

  /** `broadcast` on the list `conns`: it never raises (it is a total function),
      it tries each registered entry at most once and nothing else, a send fails
      exactly when the peer is gone, the list only loses the entries whose send
      failed (one each) and keeps the order of the rest, every connection that
      was not a failed send stays registered, every reachable connection stays
      registered, and, when no socket is registered
      twice, every connection whose send failed is gone afterwards. */
  lemma BroadcastContract(conns: seq<Socket>, failing: set<Socket>)
    ensures var r := SweepFrom(conns, 0, failing);
            && IsSubseq(Sockets(r.attempts), conns)
            && (forall a :: a in r.attempts ==> (a.ok <==> a.socket !in failing))
            && IsSubseq(r.survivors, conns)
            && multiset(r.survivors) + multiset(Failed(r.attempts)) == multiset(conns)
            && (forall c :: c in conns && c !in Failed(r.attempts) ==> c in r.survivors)
            && (forall c :: c in conns && c !in failing ==> c in r.survivors)
            && (NoDup(conns) ==> forall c :: c in Failed(r.attempts) ==> c !in r.survivors)
  {
    var r := SweepFrom(conns, 0, failing);
    SweepTriesInOrder(conns, 0, failing);
    assert conns[0..] == conns;
    SweepOutcomes(conns, 0, failing);
    SweepConserves(conns, 0, failing);
    SplitMembers(conns, r.survivors, Failed(r.attempts));
    FailedUnreachable(r.attempts, failing);
  }

  /** Only a socket whose peer is gone can be among the failed sends. */
  lemma {:induction false} FailedUnreachable(attempts: seq<Attempt>, failing: set<Socket>)
    requires forall a :: a in attempts ==> (a.ok <==> a.socket !in failing)
    ensures forall c :: c in Failed(attempts) ==> c in failing
  {
    if attempts != [] {
      assert attempts[0] in attempts;
      assert forall a :: a in attempts[1..] ==> a in attempts;
      FailedUnreachable(attempts[1..], failing);
    }
  }

  /** When `whole` splits into `kept` and `lost` (as multisets), what is not
      lost is kept, and without repeats what is lost is not kept. */
  lemma SplitMembers(whole: seq<Socket>, kept: seq<Socket>, lost: seq<Socket>)
    requires multiset(kept) + multiset(lost) == multiset(whole)
    ensures forall c :: c in whole && c !in lost ==> c in kept
    ensures NoDup(whole) ==> forall c :: c in lost ==> c !in kept
  {
    forall c | c in whole && c !in lost ensures c in kept {
      assert multiset(lost)[c] == 0;
      assert multiset(whole)[c] >= 1;
      assert multiset(kept)[c] >= 1;
    }
    if NoDup(whole) {
      forall c | c in lost ensures c !in kept {
        CountOne(whole, c);
      }
    }
  }

  /** No duplicates are introduced: a list without repeats stays without. */
  lemma BroadcastKeepsNoDup(conns: seq<Socket>, failing: set<Socket>)
    requires NoDup(conns)
    ensures NoDup(SweepFrom(conns, 0, failing).survivors)
  {
    SweepConserves(conns, 0, failing);
    SubseqMultiset(SweepFrom(conns, 0, failing).survivors, conns);
    MultisetBoundNoDup(SweepFrom(conns, 0, failing).survivors, conns);
  }

  /** A series of broadcasts keeps a list without repeats without repeats. */
  lemma {:induction false} BroadcastAllKeepsNoDup(conns: seq<Socket>, messages: seq<Message>, failing: set<Socket>)
    requires NoDup(conns)
    ensures NoDup(BroadcastAll(conns, messages, failing).survivors)
    decreases |messages|
  {
    if messages != [] {
      BroadcastKeepsNoDup(conns, failing);
      BroadcastAllKeepsNoDup(SweepFrom(conns, 0, failing).survivors, messages[1..], failing);
    }
  }

  /** When every peer is reachable, the broadcast tries every entry from `i` on,
      in list order, and the list is unchanged. */
  lemma {:induction false} SweepAllReachable(conns: seq<Socket>, i: nat, failing: set<Socket>)
    requires i <= |conns|
    requires forall c :: c in conns ==> c !in failing
    ensures var r := SweepFrom(conns, i, failing);
            r.survivors == conns && Sockets(r.attempts) == conns[i..]
            && forall k :: 0 <= k < |r.attempts| ==> r.attempts[k].ok
    decreases |conns| - i
  {
    if i < |conns| {
      SweepAllReachable(conns, i + 1, failing);
      var r := SweepFrom(conns, i, failing);
      assert Sockets(r.attempts) == [conns[i]] + Sockets(r.attempts[1..]);
      assert conns[i..] == [conns[i]] + conns[i + 1..];
    }
  }

  /** The connection right after one whose send fails is not tried in that
      broadcast, yet stays registered (the list has no repeats). */
  lemma SweepSkipsSuccessor(conns: seq<Socket>, i: nat, failing: set<Socket>)
    requires i + 1 < |conns| && conns[i] in failing && NoDup(conns)
    ensures var r := SweepFrom(conns, i, failing);
            conns[i + 1] !in Sockets(r.attempts) && conns[i + 1] in r.survivors
  {
    var c, x := conns[i], conns[i + 1];
    var r := SweepFrom(conns, i, failing);
    assert x !in Sockets(r.attempts) by {
      SkippedNotTried(conns, i, failing);
    }
    assert x !in Failed(r.attempts) by {
      FailedAreTried(r.attempts);
      assert multiset(Sockets(r.attempts))[x] == 0;
    }
    SweepConserves(conns, i, failing);
    SplitMembers(conns, r.survivors, Failed(r.attempts));
  }

  lemma SkippedNotTried(conns: seq<Socket>, i: nat, failing: set<Socket>)
    requires i + 1 < |conns| && conns[i] in failing && NoDup(conns)
    ensures conns[i + 1] !in Sockets(SweepFrom(conns, i, failing).attempts)
  {
    var c, x := conns[i], conns[i + 1];
    var next := RemoveFirst(conns, c);
    var r := SweepFrom(conns, i, failing);
    var rest := SweepFrom(next, i + 1, failing);
    assert r.attempts == [Attempt(c, false)] + rest.attempts;
    assert Sockets(r.attempts) == [c] + Sockets(rest.attempts);
    assert x != c;
    RemoveFirstSuffix(conns, c, i);
    SweepTriesInOrder(next, i + 1, failing);
    assert next[i + 1..] == next[i..][1..];
    assert x !in next[i + 1..] by {
      forall k | i + 2 <= k < |conns| ensures conns[k] != x { }
    }
    SubseqMembers(Sockets(rest.attempts), next[i + 1..]);
  }

  /** The sockets a broadcast tries, read off the list it starts from: every
      entry in order, except that the entry right after one whose send fails is
      passed over. A failed send never ends the broadcast. */
  function Reach(s: seq<Socket>, failing: set<Socket>): seq<Socket>
    decreases |s|
  {
    if s == [] then []
    else if s[0] in failing then [s[0]] + (if |s| == 1 then [] else Reach(s[2..], failing))
    else [s[0]] + Reach(s[1..], failing)
  }

  /** Exactly which connections one broadcast tries, duplicates included: the
      sweep from position `p` tries `Reach` of the list from `p` on. */
  lemma {:induction false} ReachExact(l: seq<Socket>, p: nat, failing: set<Socket>)
    requires p <= |l|
    ensures Sockets(SweepFrom(l, p, failing).attempts) == Reach(l[p..], failing)
    decreases |l| - p, 1
  {
    if p < |l| {
      SweepSocketsStep(l, p, failing);
      if l[p] in failing {
        ReachAfterFailure(l, p, failing);
      } else {
        assert l[p + 1..] == l[p..][1..];
        ReachExact(l, p + 1, failing);
      }
    }
  }

  /** The failing case of ReachExact: the sweep resumes one place further
      along the shortened list, which is two places further along the old one. */
  lemma {:induction false} ReachAfterFailure(l: seq<Socket>, p: nat, failing: set<Socket>)
    requires p < |l| && l[p] in failing
    ensures Sockets(SweepFrom(RemoveFirst(l, l[p]), p + 1, failing).attempts)
            == (if |l[p..]| == 1 then [] else Reach(l[p..][2..], failing))
    decreases |l| - p, 0
  {
    var next := RemoveFirst(l, l[p]);
    RemoveFirstSuffix(l, l[p], p);
    if |l[p..]| == 1 {
      assert |next| == p;
      assert SweepFrom(next, p + 1, failing) == Sweep(next, []);
    } else {
      assert next[p + 1..] == next[p..][1..] == l[p + 1..][1..] == l[p + 2..];
      assert l[p..][2..] == l[p + 2..];
      ReachExact(next, p + 1, failing);
    }
  }

  /** One step of a sweep, seen through the sockets it tries. */
  lemma SweepSocketsStep(l: seq<Socket>, p: nat, failing: set<Socket>)
    requires p < |l|
    ensures var c := l[p];
            var next := if c in failing then RemoveFirst(l, c) else l;
            && Sockets(SweepFrom(l, p, failing).attempts) == [c] + Sockets(SweepFrom(next, p + 1, failing).attempts)
            && Reach(l[p..], failing)
               == [c] + (if c !in failing then Reach(l[p..][1..], failing)
                         else if |l[p..]| == 1 then [] else Reach(l[p..][2..], failing))
  {
    var c := l[p];
    var next := if c in failing then RemoveFirst(l, c) else l;
    var rest := SweepFrom(next, p + 1, failing);
    assert SweepFrom(l, p, failing).attempts == [Attempt(c, c !in failing)] + rest.attempts;
    assert l[p..][0] == c;
  }

  /** Three clients A, B and C, A's peer gone: A is tried and dropped, B is
      passed over, and C is still tried and served. */
  lemma IsolationExample(a: Socket, b: Socket, c: Socket)
    requires a != b && a != c && b != c
    ensures SweepFrom([a, b, c], 0, {a}) == Sweep([b, c], [Attempt(a, false), Attempt(c, true)])
  {
    assert RemoveFirst([a, b, c], a) == [b, c];
    assert SweepFrom([b, c], 2, {a}) == Sweep([b, c], []);
    assert SweepFrom([b, c], 1, {a}) == Sweep([b, c], [Attempt(c, true)]);
  }

  /** Two clients A and B, A's peer gone: A is dropped, B stays registered but
      is not sent the message. */
  lemma SkippedClientExample(a: Socket, b: Socket)
    requires a != b
    ensures SweepFrom([a, b], 0, {a}) == Sweep([b], [Attempt(a, false)])
  {
    assert RemoveFirst([a, b], a) == [b];
  }

  /** Broadcasting `m1` then `m2` is broadcasting `m1 + m2`. */
  lemma {:induction false} BroadcastAllAppend(conns: seq<Socket>, m1: seq<Message>, m2: seq<Message>, failing: set<Socket>)
    ensures var t := BroadcastAll(conns, m1, failing);
            var u := BroadcastAll(t.survivors, m2, failing);
            BroadcastAll(conns, m1 + m2, failing) == Trace(u.survivors, t.deliveries + u.deliveries)
    decreases |m1|
  {
    if m1 == [] {
      assert m1 + m2 == m2;
    } else {
      assert (m1 + m2)[0] == m1[0];
      assert (m1 + m2)[1..] == m1[1..] + m2;
      var s := SweepFrom(conns, 0, failing);
      BroadcastAllAppend(s.survivors, m1[1..], m2, failing);
      var d := Deliveries(s.attempts, m1[0]);
      var rest := BroadcastAll(s.survivors, m1[1..], failing);
      var u := BroadcastAll(rest.survivors, m2, failing);
      assert d + (rest.deliveries + u.deliveries) == (d + rest.deliveries) + u.deliveries;
    }
  }

  /** One message more is one broadcast more. */
  lemma BroadcastAllSnoc(conns: seq<Socket>, messages: seq<Message>, m: Message, failing: set<Socket>)
    ensures var t := BroadcastAll(conns, messages, failing);
            var s := SweepFrom(t.survivors, 0, failing);
            BroadcastAll(conns, messages + [m], failing)
              == Trace(s.survivors, t.deliveries + Deliveries(s.attempts, m))
  {
    BroadcastAllAppend(conns, messages, [m], failing);
    var t := BroadcastAll(conns, messages, failing);
    var s := SweepFrom(t.survivors, 0, failing);
    assert BroadcastAll(t.survivors, [m], failing) == Trace(s.survivors, Deliveries(s.attempts, m) + []);
  }

  lemma {:induction false} ReceivedByAppend(c: Socket, d1: seq<Delivery>, d2: seq<Delivery>)
    ensures ReceivedBy(c, d1 + d2) == ReceivedBy(c, d1) + ReceivedBy(c, d2)
  {
    if d1 == [] {
      assert d1 + d2 == d2;
    } else {
      assert (d1 + d2)[0] == d1[0];
      assert (d1 + d2)[1..] == d1[1..] + d2;
      ReceivedByAppend(c, d1[1..], d2);
    }
  }

  /** A client tried at most once by a broadcast receives that message at most
      once, and receives it exactly when its send went through. */
  lemma {:induction false} ReceivedFromSweep(c: Socket, attempts: seq<Attempt>, m: Message)
    requires multiset(Sockets(attempts))[c] <= 1
    ensures ReceivedBy(c, Deliveries(attempts, m)) == if Attempt(c, true) in attempts then [m] else []
  {
    if attempts != [] {
      var a := attempts[0];
      var rest := attempts[1..];
      assert attempts == [a] + rest;
      assert Sockets(attempts) == [a.socket] + Sockets(rest);
      ReceivedByAppend(c, if a.ok then [Delivery(a.socket, m)] else [], Deliveries(rest, m));
      if a.socket == c {
        assert multiset(Sockets(rest))[c] == 0;
        NotTriedReceivesNothing(c, rest, m);
      } else {
        ReceivedFromSweep(c, rest, m);
      }
    }
  }

  /** A client that a broadcast never tried receives nothing from it. */
  lemma {:induction false} NotTriedReceivesNothing(c: Socket, attempts: seq<Attempt>, m: Message)
    requires c !in Sockets(attempts)
    ensures ReceivedBy(c, Deliveries(attempts, m)) == [] && Attempt(c, true) !in attempts
  {
    if attempts != [] {
      var a := attempts[0];
      var rest := attempts[1..];
      assert attempts == [a] + rest;
      assert Sockets(attempts) == [a.socket] + Sockets(rest);
      NotTriedReceivesNothing(c, rest, m);
      ReceivedByAppend(c, if a.ok then [Delivery(a.socket, m)] else [], Deliveries(rest, m));
    }
  }

  /** Without repeated registrations, every client receives a subsequence of
      the broadcast messages: in broadcast order, none twice, some possibly
      missed. The list never gains repeats. */
  lemma {:induction false} ClientSeesSubsequence(c: Socket, conns: seq<Socket>, messages: seq<Message>, failing: set<Socket>)
    requires NoDup(conns)
    ensures var t := BroadcastAll(conns, messages, failing);
            IsSubseq(ReceivedBy(c, t.deliveries), messages) && NoDup(t.survivors)
    decreases |messages|
  {
    if messages != [] {
      var s := SweepFrom(conns, 0, failing);
      var rest := BroadcastAll(s.survivors, messages[1..], failing);
      BroadcastKeepsNoDup(conns, failing);
      ClientSeesSubsequence(c, s.survivors, messages[1..], failing);
      var mine := ReceivedBy(c, rest.deliveries);
      assert ReceivedBy(c, BroadcastAll(conns, messages, failing).deliveries)
             == (if Attempt(c, true) in s.attempts then [messages[0]] else []) + mine by {
        SweepReceivesAtMostOnce(c, conns, messages[0], failing);
        ReceivedByAppend(c, Deliveries(s.attempts, messages[0]), rest.deliveries);
      }
      if Attempt(c, true) in s.attempts {
        assert messages == [messages[0]] + messages[1..];
        SubseqCons(messages[0], mine, messages[1..]);
      } else {
        assert [] + mine == mine;
        SubseqOfTail(messages[1..], messages);
        SubseqTrans(mine, messages[1..], messages);
      }
    }
  }

  /** Without repeated registrations, one broadcast delivers its message to a
      client at most once, exactly when the send to it went through. */
  lemma SweepReceivesAtMostOnce(c: Socket, conns: seq<Socket>, m: Message, failing: set<Socket>)
    requires NoDup(conns)
    ensures var s := SweepFrom(conns, 0, failing);
            ReceivedBy(c, Deliveries(s.attempts, m)) == if Attempt(c, true) in s.attempts then [m] else []
  {
    var s := SweepFrom(conns, 0, failing);
    SweepTriesInOrder(conns, 0, failing);
    assert conns[0..] == conns;
    SubseqMultiset(Sockets(s.attempts), conns);
    CountOne(conns, c);
    ReceivedFromSweep(c, s.attempts, m);
  }

  /** When every registered peer is reachable and none is registered twice,
      every client receives every broadcast message, in order, and the list is
      unchanged. */
  lemma {:induction false} AllReachableAllReceive(c: Socket, conns: seq<Socket>, messages: seq<Message>, failing: set<Socket>)
    requires NoDup(conns) && c in conns
    requires forall x :: x in conns ==> x !in failing
    ensures var t := BroadcastAll(conns, messages, failing);
            ReceivedBy(c, t.deliveries) == messages && t.survivors == conns
    decreases |messages|
  {
    if messages != [] {
      var s := SweepFrom(conns, 0, failing);
      var rest := BroadcastAll(conns, messages[1..], failing);
      assert s.survivors == conns && Attempt(c, true) in s.attempts by {
        SweepAllReachable(conns, 0, failing);
        var k :| 0 <= k < |conns| && conns[k] == c;
        assert conns[0..] == conns;
        assert Sockets(s.attempts)[k] == c;
        assert s.attempts[k] == Attempt(c, true);
      }
      AllReachableAllReceive(c, conns, messages[1..], failing);
      SweepReceivesAtMostOnce(c, conns, messages[0], failing);
      ReceivedByAppend(c, Deliveries(s.attempts, messages[0]), rest.deliveries);
      assert messages == [messages[0]] + messages[1..];
    }
  }
}
