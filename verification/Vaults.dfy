/** The collateral book (q-exits: vault.rs). */
module Vaults {
  import opened Machine
  import opened Sums
  import opened ExitTypes

  datatype Vault = Vault(free: u128, locked: u128)

  type Book = map<u32, Vault>

  function Register(b: Book, id: u32, collateral: u128): Book {
    var v := if id in b then b[id] else Vault(0, 0);
    b[id := v.(free := SatAdd128(v.free, collateral))]
  }

  function Lock(b: Book, id: u32, amount: u128): Result<Book, ExitError> {
    if id !in b then Err(UnknownVault)
    else if b[id].free < amount then Err(ThinVault)
    else if b[id].locked + amount > U128_MAX then Err(Overflow)
    else Ok(b[id := Vault(b[id].free - amount, b[id].locked + amount)])
  }

  function Release(b: Book, id: u32, amount: u128): Result<Book, ExitError> {
    if id !in b then Err(UnknownVault)
    else if b[id].locked < amount then Err(Overflow)
    else if b[id].free + amount > U128_MAX then Err(Overflow)
    else Ok(b[id := Vault(b[id].free + amount, b[id].locked - amount)])
  }

  function Seize(b: Book, id: u32, amount: u128): Result<Book, ExitError> {
    if id !in b then Err(UnknownVault)
    else if b[id].locked < amount then Err(Overflow)
    else Ok(b[id := b[id].(locked := b[id].locked - amount)])
  }

  predicate NoLooser(b: Book, x: u32, y: u32)
    requires x in b && y in b
  {
    b[x].free < b[y].free || (b[x].free == b[y].free && x <= y)
  }

  /** `lock_any` takes the tightest fit: the least free balance that still covers, lowest id first. */
  ghost predicate TightestFit(b: Book, amount: u128, id: u32) {
    && id in b && b[id].free >= amount
    && forall w :: w in b && b[w].free >= amount ==> NoLooser(b, id, w)
  }

  lemma TightestFitUnique(b: Book, amount: u128, x: u32, y: u32)
    requires TightestFit(b, amount, x) && TightestFit(b, amount, y)
    ensures x == y
  {}

  ghost function LockAny(b: Book, amount: u128): Result<(u32, Book), ExitError> {
    if exists id: u32 :: TightestFit(b, amount, id) then
      var id: u32 :| TightestFit(b, amount, id);
      var locked := Lock(b, id, amount);
      if locked.Ok? then Ok((id, locked.value)) else Err(locked.error)
    else Err(ThinVault)
  }

  /** All collateral in the book, free and locked. */
  ghost function Holdings(b: Book): map<u32, nat> {
    map id | id in b :: b[id].free + b[id].locked
  }

  ghost function BookTotal(b: Book): nat {
    MapSum(Holdings(b))
  }

  /** Locking and releasing move collateral inside a vault. */
  lemma LockTotal(b: Book, id: u32, amount: u128)
    requires Lock(b, id, amount).Ok?
    ensures BookTotal(Lock(b, id, amount).value) == BookTotal(b)
  {
    assert Holdings(Lock(b, id, amount).value) == Holdings(b);
  }

  lemma ReleaseTotal(b: Book, id: u32, amount: u128)
    requires Release(b, id, amount).Ok?
    ensures BookTotal(Release(b, id, amount).value) == BookTotal(b)
  {
    assert Holdings(Release(b, id, amount).value) == Holdings(b);
  }

  /** Seizing takes collateral out of the book. */
  lemma SeizeTotal(b: Book, id: u32, amount: u128)
    requires Seize(b, id, amount).Ok?
    ensures BookTotal(Seize(b, id, amount).value) + amount == BookTotal(b)
  {
    var h: map<u32, nat> := Holdings(b);
    assert Holdings(Seize(b, id, amount).value) == h[id := h[id] - amount];
    MapSumSet(h, id, h[id] - amount);
  }

  lemma RegisterTotal(b: Book, id: u32, collateral: u128)
    requires BookTotal(b) + collateral <= U128_MAX
    ensures BookTotal(Register(b, id, collateral)) == BookTotal(b) + collateral
    ensures id in b ==> b[id].free + b[id].locked + collateral <= U128_MAX
  {
    var h: map<u32, nat> := Holdings(b);
    if id in b {
      MapSumMember(h, id);
    }
    var was := if id in b then h[id] else 0;
    assert Holdings(Register(b, id, collateral)) == h[id := was + collateral];
    MapSumSet(h, id, was + collateral);
  }

  /** The book as the service holds it, changed in place. */
  class VaultBook {
    var vaults: Book

    constructor ()
      ensures vaults == map[]
    {
      vaults := map[];
    }

    method RegisterVault(id: u32, collateral: u128)
      modifies this
      ensures vaults == Register(old(vaults), id, collateral)
    {
      if id !in vaults {
        vaults := vaults[id := Vault(0, 0)];
      }
      vaults := vaults[id := vaults[id].(free := SatAdd128(vaults[id].free, collateral))];
    }

    method LockVault(id: u32, amount: u128) returns (r: Result<(), ExitError>)
      modifies this
      ensures r.Ok? <==> Lock(old(vaults), id, amount).Ok?
      ensures r.Ok? ==> vaults == Lock(old(vaults), id, amount).value
      ensures r.Err? ==> r.error == Lock(old(vaults), id, amount).error && vaults == old(vaults)
    {
      if id !in vaults {
        return Err(UnknownVault);
      }
      var v := vaults[id];
      if v.free < amount {
        return Err(ThinVault);
      }
      if v.locked + amount > U128_MAX {
        return Err(Overflow);
      }
      vaults := vaults[id := Vault(v.free - amount, v.locked + amount)];
      r := Ok(());
    }

    /** The search for the tightest fit; the ids are visited in any order. */
    method LockAnyVault(amount: u128) returns (r: Result<u32, ExitError>)
      modifies this
      ensures match LockAny(old(vaults), amount)
        case Ok(p) => r == Ok(p.0) && vaults == p.1
        case Err(e) => r == Err(e) && vaults == old(vaults)
    {
      var rest := vaults.Keys;
      var best: Option<u32> := None;
      while rest != {}
        invariant rest <= vaults.Keys && vaults == old(vaults)
        invariant best.Some? ==> best.value in vaults && vaults[best.value].free >= amount
        invariant forall w :: w in vaults && w !in rest && vaults[w].free >= amount ==>
                    best.Some? && NoLooser(vaults, best.value, w)
        decreases |rest|
      {
        var id :| id in rest;
        rest := rest - {id};
        var v := vaults[id];
        if v.free >= amount {
          if best.None? || v.free < vaults[best.value].free || (v.free == vaults[best.value].free && id < best.value) {
            best := Some(id);
          }
        }
      }
      if best.None? {
        return Err(ThinVault);
      }
      assert TightestFit(vaults, amount, best.value);
      forall x: u32 | TightestFit(vaults, amount, x) ensures x == best.value {
        TightestFitUnique(vaults, amount, x, best.value);
      }
      var locked := LockVault(best.value, amount);
      r := if locked.Ok? then Ok(best.value) else Err(locked.error);
    }

    method ReleaseVault(id: u32, amount: u128) returns (r: Result<(), ExitError>)
      modifies this
      ensures r.Ok? <==> Release(old(vaults), id, amount).Ok?
      ensures r.Ok? ==> vaults == Release(old(vaults), id, amount).value
      ensures r.Err? ==> r.error == Release(old(vaults), id, amount).error && vaults == old(vaults)
    {
      if id !in vaults {
        return Err(UnknownVault);
      }
      var v := vaults[id];
      if v.locked < amount {
        return Err(Overflow);
      }
      if v.free + amount > U128_MAX {
        return Err(Overflow);
      }
      vaults := vaults[id := Vault(v.free + amount, v.locked - amount)];
      r := Ok(());
    }

    method SeizeVault(id: u32, amount: u128) returns (r: Result<(), ExitError>)
      modifies this
      ensures r.Ok? <==> Seize(old(vaults), id, amount).Ok?
      ensures r.Ok? ==> vaults == Seize(old(vaults), id, amount).value
      ensures r.Err? ==> r.error == Seize(old(vaults), id, amount).error && vaults == old(vaults)
    {
      if id !in vaults {
        return Err(UnknownVault);
      }
      var v := vaults[id];
      if v.locked < amount {
        return Err(Overflow);
      }
      vaults := vaults[id := v.(locked := v.locked - amount)];
      r := Ok(());
    }
  }
}
