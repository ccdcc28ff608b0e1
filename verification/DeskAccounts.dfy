/** What every journal that replays guarantees: balances add up and no reference is used twice. */
module DeskAccounts {
  import opened Machine
  import opened Sums
  import opened ExitTypes
  import opened Vaults
  import opened Desk

  function Weight(x: Exit, v: u32, st: ExitState): nat {
    if x.vaultId == v && x.state == st then x.locked else 0
  }

  /** The collateral of vault `v` under exits in state `st`. */
  function Under(exits: seq<Exit>, v: u32, st: ExitState): nat {
    if exits == [] then 0 else Under(exits[..|exits| - 1], v, st) + Weight(exits[|exits| - 1], v, st)
  }

  lemma UnderAppend(exits: seq<Exit>, x: Exit, v: u32, st: ExitState)
    ensures Under(exits + [x], v, st) == Under(exits, v, st) + Weight(x, v, st)
  {
    assert (exits + [x])[..|exits|] == exits;
  }

  lemma {:induction false} UnderMove(exits: seq<Exit>, i: nat, to: ExitState, v: u32, st: ExitState)
    requires i < |exits|
    ensures Weight(exits[i], v, st) <= Under(exits, v, st)
    ensures Under(SetState(exits, i, to), v, st)
         == Under(exits, v, st) - Weight(exits[i], v, st) + Weight(exits[i].(state := to), v, st)
  {
    var n := |exits| - 1;
    var after := SetState(exits, i, to);
    if i < n {
      UnderMove(exits[..n], i, to, v, st);
      assert after[..n] == SetState(exits[..n], i, to) && after[n] == exits[n];
    } else {
      assert after[..n] == exits[..n];
    }
  }

  /** Vault `v` holds exactly what the exits say, out of `registered`. */
  predicate Holds(exits: seq<Exit>, v: u32, vault: Vault, registered: nat) {
    && vault.locked == Under(exits, v, Pending)
    && vault.free + vault.locked + Under(exits, v, Slashed) == registered
  }

  predicate AllHold(exits: seq<Exit>, vaults: Book, b: Book) {
    vaults.Keys == b.Keys && forall v :: v in b ==> Holds(exits, v, vaults[v], b[v].free)
  }

  /** The desk's balances against the collateral `b` its vaults were registered with. */
  predicate Balanced(b: Book, d: Desk) {
    && AllHold(d.exits, d.vaults, b)
    && forall i :: 0 <= i < |d.exits| ==> d.exits[i].vaultId in b
  }

  /** Collateral is in the book or in the seized reserve. */
  ghost predicate Conserved(b: Book, d: Desk) {
    BookTotal(d.vaults) + d.seized == BookTotal(b)
  }

  ghost predicate AllFree(b: Book) {
    forall v :: v in b ==> b[v].locked == 0
  }

  function Registered(b: Book): Desk {
    EMPTY.(vaults := b)
  }

  lemma HoldsOpened(exits: seq<Exit>, x: Exit, v: u32, was: Vault, vault: Vault, registered: nat)
    requires Holds(exits, v, was, registered) && x.state == Pending
    requires if x.vaultId == v then 
               vault.free + x.locked == was.free && vault.locked == was.locked + x.locked
             else vault == was
    ensures Holds(exits + [x], v, vault, registered)
  {
    UnderAppend(exits, x, v, Pending);
    UnderAppend(exits, x, v, Slashed);
  }

  lemma HoldsClosed(exits: seq<Exit>, i: nat, to: ExitState, v: u32, was: Vault, vault: Vault, registered: nat)
    requires i < |exits| && exits[i].state == Pending && to != Pending
    requires Holds(exits, v, was, registered)
    requires if exits[i].vaultId == v then
               was.locked >= exits[i].locked && vault.locked == was.locked - exits[i].locked
               && vault.free == was.free + (if to == Settled then exits[i].locked else 0)
             else vault == was
    ensures Holds(SetState(exits, i, to), v, vault, registered)
  {
    UnderMove(exits, i, to, v, Pending);
    UnderMove(exits, i, to, v, Slashed);
  }

  lemma ApplyKeepsHolds(b: Book, d: Desk, e: Event, v: u32)
    requires Balanced(b, d) && Apply(d, e).Ok? && v in b
    ensures v in Apply(d, e).value.vaults
    ensures Holds(Apply(d, e).value.exits, v, Apply(d, e).value.vaults[v], b[v].free)
  {
    var now := Apply(d, e).value.vaults;
    assert Holds(d.exits, v, d.vaults[v], b[v].free);
    match e
    case Opened(_, x) => HoldsOpened(d.exits, ExitOf(x), v, d.vaults[v], now[v], b[v].free);
    case SettledBy(i, _) => HoldsClosed(d.exits, i, Settled, v, d.vaults[v], now[v], b[v].free);
    case SlashedAt(i) => HoldsClosed(d.exits, i, Slashed, v, d.vaults[v], now[v], b[v].free);
    case Lettered(_, _) =>
  }

  lemma ApplyKeepsKeys(d: Desk, e: Event)
    requires Apply(d, e).Ok?
    ensures Apply(d, e).value.vaults.Keys == d.vaults.Keys
    ensures e.Opened? ==> e.exit.vaultId in d.vaults
  {}

  lemma ApplyKeepsBalance(b: Book, d: Desk, e: Event)
    requires Balanced(b, d) && Apply(d, e).Ok?
    ensures Balanced(b, Apply(d, e).value)
  {
    ApplyKeepsKeys(d, e);
    forall v | v in b ensures Holds(Apply(d, e).value.exits, v, Apply(d, e).value.vaults[v], b[v].free) {
      ApplyKeepsHolds(b, d, e, v);
    }
  }

  lemma ApplyConserves(b: Book, d: Desk, e: Event)
    requires Conserved(b, d) && Apply(d, e).Ok?
    ensures Conserved(b, Apply(d, e).value)
  {
    match e
    case Opened(_, x) => LockTotal(d.vaults, x.vaultId, x.locked);
    case SettledBy(i, _) => ReleaseTotal(d.vaults, d.exits[i].vaultId, d.exits[i].locked);
    case SlashedAt(i) => SeizeTotal(d.vaults, d.exits[i].vaultId, d.exits[i].locked);
    case Lettered(_, _) =>
  }

  /** Conservation: in every desk a journal rebuilds, each vault's locked balance is exactly what its pending exits
      lock, and free, locked and slashed collateral add up to what was registered. */
  lemma {:induction false} ReplayBalances(b: Book, events: seq<Event>)
    requires AllFree(b) && Replay(Registered(b), events).Ok?
    ensures Balanced(b, Replay(Registered(b), events).value)
    ensures Conserved(b, Replay(Registered(b), events).value)
  {
    if events == [] {
    } else {
      var before := events[..|events| - 1];
      ReplayBalances(b, before);
      ApplyKeepsBalance(b, Replay(Registered(b), before).value, events[|events| - 1]);
      ApplyConserves(b, Replay(Registered(b), before).value, events[|events| - 1]);
    }
  }

  /** A balanced vault can always give up what a pending exit locks. */
  lemma PendingIsLocked(b: Book, d: Desk, i: nat)
    requires Balanced(b, d) && i < |d.exits| && d.exits[i].state == Pending
    ensures d.exits[i].vaultId in d.vaults && d.exits[i].locked <= d.vaults[d.exits[i].vaultId].locked
    ensures d.vaults[d.exits[i].vaultId].free + d.exits[i].locked <= b[d.exits[i].vaultId].free
  {
    var x := d.exits[i];
    UnderMove(d.exits, i, Settled, x.vaultId, Pending);
    assert Holds(d.exits, x.vaultId, d.vaults[x.vaultId], b[x.vaultId].free);
  }

  /** The references an event consumes: the burn it opens or the payout it settles with. */
  function RefsOf(e: Event): set<Bytes32> {
    match e
    case Opened(_, x) => {x.burnRef}
    case SettledBy(_, r) => {r}
    case _ => {}
  }

  function AllRefs(events: seq<Event>): set<Bytes32> {
    if events == [] then {} else AllRefs(events[..|events| - 1]) + RefsOf(events[|events| - 1])
  }

  lemma ApplyConsumes(d: Desk, e: Event)
    requires Apply(d, e).Ok?
    ensures RefsOf(e) !! d.consumed
    ensures Apply(d, e).value.consumed == d.consumed + RefsOf(e)
  {}

  lemma {:induction false} AllRefsHolds(events: seq<Event>, i: nat)
    requires i < |events|
    ensures RefsOf(events[i]) <= AllRefs(events)
  {
    if i < |events| - 1 {
      AllRefsHolds(events[..|events| - 1], i);
    }
  }

  /** One exit per burn and one exit per payout: no reference of an accepted journal repeats, burns and payouts
      taken together, and the consumed set is exactly the references. */
  lemma {:induction false} ReplayRefsDistinct(b: Book, events: seq<Event>)
    requires Replay(Registered(b), events).Ok?
    ensures Replay(Registered(b), events).value.consumed == AllRefs(events)
    ensures forall i, j :: 0 <= i < j < |events| ==> RefsOf(events[i]) !! RefsOf(events[j])
  {
    if events == [] {
    } else {
      var n := |events| - 1;
      var before := events[..n];
      ReplayRefsDistinct(b, before);
      ApplyConsumes(Replay(Registered(b), before).value, events[n]);
      forall i, j | 0 <= i < j < |events| ensures RefsOf(events[i]) !! RefsOf(events[j]) {
        assert before[i] == events[i];
        if j == n {
          AllRefsHolds(before, i);
        } else {
          assert before[j] == events[j];
        }
      }
    }
  }

  predicate Closes(e: Event, i: nat) {
    (e.SettledBy? || e.SlashedAt?) && e.index == i
  }

  predicate Closed(d: Desk, i: nat) {
    i < |d.exits| && d.exits[i].state != Pending
  }

  predicate SomeCloses(events: seq<Event>, i: nat) {
    exists j :: 0 <= j < |events| && Closes(events[j], i)
  }

  lemma ApplyCloses(d: Desk, e: Event, i: nat)
    requires Apply(d, e).Ok?
    ensures Closed(Apply(d, e).value, i) <==> Closed(d, i) || Closes(e, i)
    ensures !(Closed(d, i) && Closes(e, i))
  {}

  lemma {:induction false} ReplayClosed(b: Book, events: seq<Event>, i: nat)
    requires Replay(Registered(b), events).Ok?
    ensures Closed(Replay(Registered(b), events).value, i) <==> SomeCloses(events, i)
  {
    if events == [] {
    } else {
      var n := |events| - 1;
      var before := events[..n];
      ReplayClosed(b, before, i);
      ApplyCloses(Replay(Registered(b), before).value, events[n], i);
      SomeClosesAppend(before, events[n], i);
      assert before + [events[n]] == events;
    }
  }

  lemma SomeClosesAppend(events: seq<Event>, e: Event, i: nat)
    ensures SomeCloses(events + [e], i) <==> SomeCloses(events, i) || Closes(e, i)
  {
    var all := events + [e];
    if j :| 0 <= j < |events| && Closes(events[j], i) {
      assert Closes(all[j], i);
    }
    if Closes(e, i) {
      assert Closes(all[|events|], i);
    }
  }

  /** Each exit leaves Pending at most once: no journal that replays closes an exit twice, and an exit is out of
      Pending exactly when some record closes it. */
  lemma {:induction false} ReplayClosesOnce(b: Book, events: seq<Event>, i: nat, j: nat, k: nat)
    requires Replay(Registered(b), events).Ok? && j < k < |events| && Closes(events[j], i)
    ensures !Closes(events[k], i)
  {
    var n := |events| - 1;
    var before := events[..n];
    assert Closes(before[j], i);
    if k < n {
      ReplayClosesOnce(b, before, i, j, k);
    } else {
      ReplayClosed(b, before, i);
      ApplyCloses(Replay(Registered(b), before).value, events[n], i);
    }
  }
}
