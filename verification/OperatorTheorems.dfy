/** What an operator's runs guarantee (q-attestor: operator.rs). */
module OperatorTheorems {
  import opened Machine
  import opened Attestor
  import opened DivergenceImage
  import opened Operator
  import opened OperatorRuns

  /** One operator never releases signatures over two digests for one (chain, reference) it has not forgotten,
      whatever writes fail, wherever it crashes, and whichever of its own old journals is put back. */
  lemma OneStoryPerReference(env: Env, run: seq<Event>, q: Release, r: Release)
    requires Sane(env) && Legal(env, run) && NoCollision(env.store, After(env, run).written)
    requires q in After(env, run).released && r in After(env, run).released && KeyOf(q.lock) == KeyOf(r.lock)
    requires KeyOf(q.lock) !in After(env, run).pruned
    ensures Told(env.h, q) == Told(env.h, r)
  {
    RunKeeps(env, run);
  }

  /** Equal digests whose preimages do not collide are one substance: same asset, amount, recipient and the rest. */
  lemma StorySubstance(h: Hash, q: Release, r: Release)
    requires Told(h, q) == Told(h, r)
    requires var x, y := DigestPreimage(SubstanceOf(q.lock, q.ctx)), DigestPreimage(SubstanceOf(r.lock, r.ctx));
      h(x) == h(y) ==> x == y
    ensures SubstanceOf(q.lock, q.ctx) == SubstanceOf(r.lock, r.ctx)
  {
    DigestPreimageInjective(SubstanceOf(q.lock, q.ctx), SubstanceOf(r.lock, r.ctx));
  }

  /** Every load that succeeds, at any point of any run, returns every released reference not forgotten. */
  lemma LoadRemembers(env: Env, run: seq<Event>, r: Release)
    requires Sane(env) && Legal(env, run) && NoCollision(env.store, After(env, run).written)
    requires r in After(env, run).released && KeyOf(r.lock) !in After(env, run).pruned
    requires Load(env.store, After(env, run).disk).Ok?
    ensures var seen := Seen(Load(env.store, After(env, run).disk).value.2);
      KeyOf(r.lock) in seen && seen[KeyOf(r.lock)].digest == Told(env.h, r)
  {
    RunKeeps(env, run);
    LoadCovers(env, After(env, run));
  }

  /** The moment of a run at which a reference was forgotten: it was expired and too many expired ones were held. */
  ghost predicate ForgottenAt(env: Env, run: seq<Event>, i: nat, k: Key)
    requires Lists(env.order) && i < |run|
  {
    var w := After(env, run[..i]);
    && run[i].Observe? && w.mem.Some? && k in w.mem.value.seen
    && w.mem.value.seen[k].expiry < run[i].height
    && |Expired(w.mem.value.seen, run[i].height)| > MAX_REMEMBERED_EXPIRED
  }

  lemma LegalBefore(env: Env, run: seq<Event>, n: nat)
    requires Lists(env.order) && n <= |run| && Legal(env, run)
    ensures Legal(env, run[..n])
  {
    forall i | 0 <= i < n ensures Allowed(After(env, run[..n][..i]), run[..n][i]) {
      assert run[..n][..i] == run[..i];
    }
  }

  lemma ForgottenThen(env: Env, run: seq<Event>, n: nat, i: nat, k: Key)
    requires Lists(env.order) && i < n <= |run| && ForgottenAt(env, run[..n], i, k)
    ensures ForgottenAt(env, run, i, k)
  {
    assert run[..n][..i] == run[..i];
  }

  lemma {:induction false} ForgottenOnlyWhenExpired(env: Env, run: seq<Event>, k: Key)
    requires Lists(env.order) && Legal(env, run) && k in After(env, run).pruned
    ensures exists i :: 0 <= i < |run| && ForgottenAt(env, run, i, k)
  {
    assert run != [];
    var n := |run| - 1;
    var w, e := After(env, run[..n]), run[n];
    if k in w.pruned {
      LegalBefore(env, run, n);
      ForgottenOnlyWhenExpired(env, run[..n], k);
      var i :| 0 <= i < n && ForgottenAt(env, run[..n], i, k);
      ForgottenThen(env, run, n, i, k);
    } else {
      NewlyForgotten(env, w, e, k);
      assert ForgottenAt(env, run, n, k);
    }
  }

  lemma NewlyForgotten(env: Env, w: World, e: Event, k: Key)
    requires Lists(env.order) && Allowed(w, e) && k in Step(env, w, e).pruned && k !in w.pruned
    ensures e.Observe? && w.mem.Some? && k in w.mem.value.seen && w.mem.value.seen[k].expiry < e.height
    ensures |Expired(w.mem.value.seen, e.height)| > MAX_REMEMBERED_EXPIRED
  {
    ForgottenWasExpired(w.mem.value.seen, e.height, e.dropped, k);
  }

  /** Two different stories about one reference mean it was forgotten in between, expired among too many. */
  lemma TwoStoriesMeanForgotten(env: Env, run: seq<Event>, q: Release, r: Release)
    requires Sane(env) && Legal(env, run) && NoCollision(env.store, After(env, run).written)
    requires q in After(env, run).released && r in After(env, run).released && KeyOf(q.lock) == KeyOf(r.lock)
    requires Told(env.h, q) != Told(env.h, r)
    ensures exists i :: 0 <= i < |run| && ForgottenAt(env, run, i, KeyOf(q.lock))
  {
    if KeyOf(q.lock) !in After(env, run).pruned {
      OneStoryPerReference(env, run, q, r);
    }
    ForgottenOnlyWhenExpired(env, run, KeyOf(q.lock));
  }

  // ---------------------------------------------------------------- what is signed, and by whom

  /** The step releases the signature from a running operator, for a configured corridor, over a lock with the
      confirmations it asks for, and over nothing signed already with that deadline. */
  predicate Signs(env: Env, w: World, e: Event, r: Release) {
    && e.Observe? && w.mem.Some? && w.mem.value.state == Running && r.lock == e.lock && r.height == e.height
    && r.lock.sourceChain in w.mem.value.corridors && r.ctx == w.mem.value.corridors[r.lock.sourceChain]
    && r.lock.confirmations >= r.ctx.requiredConfirmations
    && var p := Prune(w.mem.value, e.height, e.dropped); var k := KeyOf(r.lock);
       (k in p.signed ==> p.signed[k] != ExpiryDeadline(e.height)) && (k in p.seen ==> p.seen[k].digest == Told(env.h, r))
  }

  predicate SignedAt(env: Env, run: seq<Event>, i: nat, r: Release)
    requires Lists(env.order) && i < |run|
  {
    Signs(env, After(env, run[..i]), run[i], r)
  }

  lemma SignedThen(env: Env, run: seq<Event>, n: nat, i: nat, r: Release)
    requires Lists(env.order) && i < n <= |run| && SignedAt(env, run[..n], i, r)
    ensures SignedAt(env, run, i, r)
  {
    assert run[..n][..i] == run[..i];
  }

  lemma NewlySigned(env: Env, w: World, e: Event, r: Release)
    requires Lists(env.order) && r in Step(env, w, e).released && r !in w.released
    ensures Signs(env, w, e, r)
  {}

  /** Over every run, whatever was released was signed at some step by a running operator, final in its corridor, and not
      in conflict with what it remembered. */
  lemma {:induction false} SignsOnlyFinal(env: Env, run: seq<Event>, r: Release)
    requires Lists(env.order) && r in After(env, run).released
    ensures exists i :: 0 <= i < |run| && SignedAt(env, run, i, r)
  {
    assert run != [];
    var n := |run| - 1;
    if r in After(env, run[..n]).released {
      SignsOnlyFinal(env, run[..n], r);
      var i :| 0 <= i < n && SignedAt(env, run[..n], i, r);
      SignedThen(env, run, n, i, r);
    } else {
      NewlySigned(env, After(env, run[..n]), run[n], r);
      assert SignedAt(env, run, n, r);
    }
  }

  /** A halted operator releases nothing more and stays halted until it is stopped. */
  lemma {:induction false} HaltedSignsNothing(env: Env, run: seq<Event>, k: nat)
    requires Lists(env.order) && k <= |run|
    requires After(env, run[..k]).mem.Some? && After(env, run[..k]).mem.value.state.Halted?
    requires forall i :: k <= i < |run| ==> !run[i].Crash?
    ensures After(env, run).mem.Some? && After(env, run).mem.value.state.Halted?
    ensures After(env, run).released == After(env, run[..k]).released
    decreases |run|
  {
    if k == |run| {
      assert run[..k] == run;
    } else {
      var n := |run| - 1;
      assert run[..n][..k] == run[..k];
      HaltedSignsNothing(env, run[..n], k);
    }
  }

  /** A final observation of a remembered reference that tells another story. */
  predicate Conflicts(env: Env, w: World, e: Event) {
    && e.Observe? && w.mem.Some? && w.mem.value.state == Running
    && var m := w.mem.value; var k := KeyOf(e.lock);
    && e.lock.sourceChain in m.corridors
    && var ctx := m.corridors[e.lock.sourceChain];
    && e.lock.confirmations >= ctx.requiredConfirmations
    && k in m.seen && k !in e.dropped && m.seen[k].digest != Digest(env.h, SubstanceOf(e.lock, ctx))
  }

  lemma ConflictHalts(env: Env, w: World, e: Event)
    requires Lists(env.order) && Conflicts(env, w, e)
    ensures Step(env, w, e).mem.Some? && Step(env, w, e).mem.value.state == Halted(Divergence)
    ensures Step(env, w, e).released == w.released && Step(env, w, e).disk == w.disk
  {}

  /** After a conflicting observation nothing is released any more, until the operator is stopped. */
  lemma ConflictSilences(env: Env, run: seq<Event>, k: nat)
    requires Lists(env.order) && k < |run| && Conflicts(env, After(env, run[..k]), run[k])
    requires forall i :: k < i < |run| ==> !run[i].Crash?
    ensures After(env, run).mem.Some? && After(env, run).mem.value.state.Halted?
    ensures After(env, run).released == After(env, run[..k]).released
  {
    assert run[..k + 1][..k] == run[..k];
    ConflictHalts(env, After(env, run[..k]), run[k]);
    HaltedSignsNothing(env, run, k + 1);
  }
}
