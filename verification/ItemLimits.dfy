/** Short runs from a consistent start that leave a stale value in the cache once a guard of the
    consistency theorem is dropped. ItemExact says exactly when a step can do that. */
module ItemLimits {
  import opened Options
  import opened Sentinels
  import opened CacheOps
  import opened SlotOps
  import opened ItemProtocol
  import opened ItemConsistency

  ghost predicate GoesStale(s: State, run: seq<Step>) {
    Legal(AnyMix, s, run) && Stale(After(AnyMix, s, run))
  }

  lemma NowStale(s: State)
    requires Stale(s)
    ensures GoesStale(s, [])
  {
  }

  lemma First(s: State, step: Step, rest: seq<Step>)
    requires Enabled(s, step) && GoesStale(Apply(s, step), rest)
    ensures GoesStale(s, [step] + rest)
  {
    hide Apply, Enabled, Stale;
    var run := [step] + rest;
    assert run[0] == step && run[1..] == rest;
  }

  /** From any state with an empty key and one writer that holds a lock but has not committed:
      a read slips in, and its value outlives the write. */
  lemma EmptyKeyUnderWriter(s: State, w: Uuid, r: Uuid, text: string)
    requires s.slot.None? && s.server.Some? && s.server != Some(text) && InFlight(s) == {w}
    requires s.clients[w].role == Writer && s.clients[w].granted && s.clients[w].phase == Locked
    requires r !in s.clients
    ensures GoesStale(s, [Miss(r)] + ([Act(r, "")] + ([Act(w, text)] + ([Save(w)] + ([Save(r)] + [])))))
  {
    assert w in InFlight(s);
    hide GoesStale, InFlight;
    var s1 := Apply(s, Miss(r));
    var s2 := Apply(s1, Act(r, ""));
    var s3 := Apply(s2, Act(w, text));
    var s4 := Apply(s3, Save(w));
    var s5 := Apply(s4, Save(r));
    InFlightStep(s, Miss(r));
    InFlightStep(s1, Act(r, ""));
    InFlightStep(s2, Act(w, text));
    InFlightStep(s3, Save(w));
    InFlightStep(s4, Save(r));
    assert s5.slot == Some(Plain(s.server.value)) && s5.server == Some(text) && InFlight(s5) == {};
    NowStale(s5);
    First(s4, Save(r), []);
    First(s3, Save(w), [Save(r)] + []);
    First(s2, Act(w, text), [Save(w)] + ([Save(r)] + []));
    First(s1, Act(r, ""), [Act(w, text)] + ([Save(w)] + ([Save(r)] + [])));
    First(s, Miss(r), [Act(r, "")] + ([Act(w, text)] + ([Save(w)] + ([Save(r)] + []))));
  }

  function Start(old_: string): State { State(None, Some(old_), map[], 0) }

  ghost predicate Distinct(a: Uuid, b: Uuid, c: Uuid, d: Uuid) {
    a != b && a != c && a != d && b != c && b != d && c != d
  }

  lemma NobodyYet(old_: string)
    ensures InFlight(Start(old_)) == {}
  {
  }

  ghost predicate By(s: State, step: Step, t: State) { Enabled(s, step) && Apply(s, step) == t }

  lemma FirstBy(s: State, step: Step, t: State, rest: seq<Step>)
    requires By(s, step, t) && GoesStale(t, rest)
    ensures GoesStale(s, [step] + rest)
  {
    First(s, step, rest);
  }

  /** A writer saves under the lock of a third: the lock becomes a conflict. */
  lemma LockIsUpgraded(s: State, w1: Uuid, w2: Uuid, w3: Uuid) returns (s1: State, s2: State, t: State)
    requires InFlight(s) == {w1, w2} && s.clients.Keys == {w1, w2} && w1 != w2 && w3 != w1 && w3 != w2
    requires s.slot == Some(Lock(WriteLock, w2, []))
    requires forall u :: u in s.clients ==> s.clients[u].role == Writer && s.clients[u].granted && s.clients[u].phase == Locked
    ensures InFlight(t) == {w2, w3} && t.clients.Keys == {w1, w2, w3} && t.clients[w2] == s.clients[w2]
    ensures t.clients[w3].role == Writer && t.clients[w3].granted && t.clients[w3].phase == Locked
    ensures t.slot == Some(Lock(WriteLock, w3, [w1]))
    ensures By(s, Begin(w3, Writer), s1) && By(s1, Act(w1, "a"), s2) && By(s2, Save(w1), t)
  {
    hide InFlight;
    s1 := Apply(s, Begin(w3, Writer));
    s2 := Apply(s1, Act(w1, "a"));
    t := Apply(s2, Save(w1));
    assert t.slot == Some(Lock(WriteLock, w3, [w1])) by { assert [] + [w1] == [w1]; }
    InFlightStep(s, Begin(w3, Writer));
    InFlightStep(s1, Act(w1, "a"));
    InFlightStep(s2, Save(w1));
  }

  /** The owner of an upgraded lock saves: the key is emptied, whoever else is still in flight. */
  lemma ConflictEmptiesKey(s: State, w2: Uuid, w3: Uuid, c: seq<Uuid>) returns (s1: State, t: State)
    requires InFlight(s) == {w2, w3} && w2 in s.clients && w3 in s.clients && w2 != w3
    requires s.clients[w3].role == Writer && s.clients[w3].granted && s.clients[w3].phase == Locked
    requires s.slot == Some(Lock(WriteLock, w3, c)) && c != []
    ensures InFlight(t) == {w2} && t.clients.Keys == s.clients.Keys && t.clients[w2] == s.clients[w2]
    ensures t.slot.None? && t.server == Some("c")
    ensures By(s, Act(w3, "c"), s1) && By(s1, Save(w3), t)
  {
    hide InFlight;
    s1 := Apply(s, Act(w3, "c"));
    t := Apply(s1, Save(w3));
    InFlightStep(s, Act(w3, "c"));
    InFlightStep(s1, Save(w3));
  }

  lemma Twelve(a: Step, b: Step, c: Step, d: Step, e: Step, f: Step, g: Step, h: Step, i: Step, j: Step, k: Step, l: Step)
    ensures [a] + ([b] + ([c] + ([d] + ([e] + ([f] + ([g] + ([h] + ([i] + ([j] + ([k] + ([l] + [])))))))))))
            == [a, b, c, d, e, f, g, h, i, j, k, l]
  {
  }

  /** Three overlapping writers and one read, nothing failing: the conflict between two of the
      writers empties the key while the third is still in flight. */
  lemma ThreeWritersAndARead(w1: Uuid, w2: Uuid, w3: Uuid, r: Uuid, old_: string)
    requires Distinct(w1, w2, w3, r)
    ensures GoesStale(Start(old_),
                      [Begin(w1, Writer), Begin(w2, Writer), Begin(w3, Writer), Act(w1, "a"), Save(w1), Act(w3, "c"),
                       Save(w3), Miss(r), Act(r, ""), Act(w2, "b"), Save(w2), Save(r)])
  {
    hide GoesStale, InFlight;
    var s0 := Start(old_);
    var s1 := Apply(s0, Begin(w1, Writer));
    var s2 := Apply(s1, Begin(w2, Writer));
    assert By(s0, Begin(w1, Writer), s1) && By(s1, Begin(w2, Writer), s2);
    NobodyYet(old_);
    InFlightStep(s0, Begin(w1, Writer));
    InFlightStep(s1, Begin(w2, Writer));
    var s3, s4, s5 := LockIsUpgraded(s2, w1, w2, w3);
    var s6, t := ConflictEmptiesKey(s5, w2, w3, [w1]);
    EmptyKeyUnderWriter(t, w2, r, "b");
    hide By, Apply;
    var end := [Miss(r)] + ([Act(r, "")] + ([Act(w2, "b")] + ([Save(w2)] + ([Save(r)] + []))));
    FirstBy(s6, Save(w3), t, end);
    FirstBy(s5, Act(w3, "c"), s6, [Save(w3)] + end);
    FirstBy(s4, Save(w1), s5, [Act(w3, "c")] + ([Save(w3)] + end));
    FirstBy(s3, Act(w1, "a"), s4, [Save(w1)] + ([Act(w3, "c")] + ([Save(w3)] + end)));
    var mid := [Begin(w3, Writer)] + ([Act(w1, "a")] + ([Save(w1)] + ([Act(w3, "c")] + ([Save(w3)] + end))));
    FirstBy(s2, Begin(w3, Writer), s3, [Act(w1, "a")] + ([Save(w1)] + ([Act(w3, "c")] + ([Save(w3)] + end))));
    FirstBy(s1, Begin(w2, Writer), s2, mid);
    FirstBy(s0, Begin(w1, Writer), s1, [Begin(w2, Writer)] + mid);
    Twelve(Begin(w1, Writer), Begin(w2, Writer), Begin(w3, Writer), Act(w1, "a"), Save(w1), Act(w3, "c"),
           Save(w3), Miss(r), Act(r, ""), Act(w2, "b"), Save(w2), Save(r));
  }

  /** Two overlapping writers, the later one failing: its release empties the key under the
      first. */
  lemma FailedWriterAndARead(w1: Uuid, w2: Uuid, r: Uuid, old_: string, text: string)
    requires w1 != w2 && w1 != r && w2 != r && text != old_
    ensures GoesStale(Start(old_),
                      [Begin(w1, Writer), Begin(w2, Writer), Fail(w2), Release(w2),
                       Miss(r), Act(r, ""), Act(w1, text), Save(w1), Save(r)])
  {
    hide GoesStale, InFlight;
    var s0 := Start(old_);
    var s1 := Apply(s0, Begin(w1, Writer));
    var s2 := Apply(s1, Begin(w2, Writer));
    var s3 := Apply(s2, Fail(w2));
    var s4 := Apply(s3, Release(w2));
    NobodyYet(old_);
    InFlightStep(s0, Begin(w1, Writer));
    InFlightStep(s1, Begin(w2, Writer));
    InFlightStep(s2, Fail(w2));
    InFlightStep(s3, Release(w2));
    assert InFlight(s4) == {w1};
    EmptyKeyUnderWriter(s4, w1, r, text);
    var end := [Miss(r)] + ([Act(r, "")] + ([Act(w1, text)] + ([Save(w1)] + ([Save(r)] + []))));
    First(s3, Release(w2), end);
    First(s2, Fail(w2), [Release(w2)] + end);
    First(s1, Begin(w2, Writer), [Fail(w2)] + ([Release(w2)] + end));
    First(s0, Begin(w1, Writer), [Begin(w2, Writer)] + ([Fail(w2)] + ([Release(w2)] + end)));
    assert [Begin(w1, Writer)] + ([Begin(w2, Writer)] + ([Fail(w2)] + ([Release(w2)] + end))) ==
           [Begin(w1, Writer), Begin(w2, Writer), Fail(w2), Release(w2),
            Miss(r), Act(r, ""), Act(w1, text), Save(w1), Save(r)];
  }

  /** A writer without its lock, in flight alone with the key empty, is overtaken. */
  lemma DeniedWriterTail(s: State, w1: Uuid, w2: Uuid)
    requires s.slot.None? && InFlight(s) == {w1} && w2 !in s.clients
    requires s.clients[w1].role == Writer && !s.clients[w1].granted && s.clients[w1].phase == Locked
    ensures GoesStale(s, [Begin(w2, Writer)] + ([Act(w2, "b")] + ([Act(w1, "a")] + ([Save(w2)] + ([Save(w1)] + [])))))
  {
    assert w1 in InFlight(s);
    hide GoesStale, InFlight;
    var s1 := Apply(s, Begin(w2, Writer));
    var s2 := Apply(s1, Act(w2, "b"));
    var s3 := Apply(s2, Act(w1, "a"));
    var s4 := Apply(s3, Save(w2));
    var s5 := Apply(s4, Save(w1));
    InFlightStep(s, Begin(w2, Writer));
    InFlightStep(s1, Act(w2, "b"));
    InFlightStep(s2, Act(w1, "a"));
    InFlightStep(s3, Save(w2));
    InFlightStep(s4, Save(w1));
    assert s5.slot == Some(Plain("b")) && s5.server == Some("a") && InFlight(s5) == {};
    NowStale(s5);
    First(s4, Save(w1), []);
    First(s3, Save(w2), [Save(w1)] + []);
    First(s2, Act(w1, "a"), [Save(w2)] + ([Save(w1)] + []));
    First(s1, Act(w2, "b"), [Act(w1, "a")] + ([Save(w2)] + ([Save(w1)] + [])));
    First(s, Begin(w2, Writer), [Act(w2, "b")] + ([Act(w1, "a")] + ([Save(w2)] + ([Save(w1)] + []))));
  }

  /** A writer that meets a delete in progress runs without a lock, so nothing repairs the key
      that another writer fills meanwhile, even when no read locks on a miss. */
  lemma DeniedWriter(d: Uuid, w1: Uuid, w2: Uuid, old_: string)
    requires d != w1 && d != w2 && w1 != w2
    ensures GoesStale(Start(old_),
                      [Begin(d, Deleter), Begin(w1, Writer), Act(d, ""), Release(d),
                       Begin(w2, Writer), Act(w2, "b"), Act(w1, "a"), Save(w2), Save(w1)])
  {
    hide GoesStale, InFlight;
    var s0 := Start(old_);
    var s1 := Apply(s0, Begin(d, Deleter));
    var s2 := Apply(s1, Begin(w1, Writer));
    var s3 := Apply(s2, Act(d, ""));
    var s4 := Apply(s3, Release(d));
    NobodyYet(old_);
    InFlightStep(s0, Begin(d, Deleter));
    InFlightStep(s1, Begin(w1, Writer));
    InFlightStep(s2, Act(d, ""));
    InFlightStep(s3, Release(d));
    assert InFlight(s4) == {w1};
    DeniedWriterTail(s4, w1, w2);
    var end := [Begin(w2, Writer)] + ([Act(w2, "b")] + ([Act(w1, "a")] + ([Save(w2)] + ([Save(w1)] + []))));
    First(s3, Release(d), end);
    First(s2, Act(d, ""), [Release(d)] + end);
    First(s1, Begin(w1, Writer), [Act(d, "")] + ([Release(d)] + end));
    First(s0, Begin(d, Deleter), [Begin(w1, Writer)] + ([Act(d, "")] + ([Release(d)] + end)));
    assert [Begin(d, Deleter)] + ([Begin(w1, Writer)] + ([Act(d, "")] + ([Release(d)] + end))) ==
           [Begin(d, Deleter), Begin(w1, Writer), Act(d, ""), Release(d),
            Begin(w2, Writer), Act(w2, "b"), Act(w1, "a"), Save(w2), Save(w1)];
  }
}
