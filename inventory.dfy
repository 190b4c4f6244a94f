/** The player's weapon inventory as the engine keeps it, the native calls
    the menu makes on it, and the effect of each weapon handler. */
module Inventory {
  import opened Types

  /** What the engine holds for one owned weapon. */
  datatype WeaponState = WeaponState(clip: nat, ammo: nat, components: set<uint32>, tint: nat)

  /** Owned weapons by hash; a hash outside the domain is not owned. */
  type Loadout = map<uint32, WeaponState>

  /** `a` and `b` own the same weapons and hold the same state for each,
      except possibly for the weapon `h`. */
  ghost predicate AgreeExcept(a: Loadout, b: Loadout, h: uint32)
  {
    && (forall k :: k != h ==> (k in a <==> k in b))
    && (forall k :: k != h && k in a ==> a[k] == b[k])
  }

  // ---------------------------------------------------------------------
  // Native calls, as reads and writes of the loadout. The setters have no
  // effect on a weapon the player does not own.

  /** GiveWeaponToPed: a new weapon arrives with `ammo` rounds, the clip the
      engine loads, no components and tint 0; giving an owned weapon only
      sets its ammo. */
  function GiveWeapon(inv: Loadout, h: uint32, ammo: nat, e: Engine): Loadout
  {
    if h in inv then inv[h := inv[h].(ammo := ammo)]
    else inv[h := WeaponState(e.loadedClip(h, ammo), ammo, {}, 0)]
  }

  /** RemoveWeaponFromPed */
  function RemoveWeapon(inv: Loadout, h: uint32): Loadout
  {
    inv - {h}
  }

  /** SetPedAmmo */
  function SetAmmo(inv: Loadout, h: uint32, n: nat): Loadout
  {
    if h in inv then inv[h := inv[h].(ammo := n)] else inv
  }

  /** SetAmmoInClip */
  function SetClip(inv: Loadout, h: uint32, n: nat): Loadout
  {
    if h in inv then inv[h := inv[h].(clip := n)] else inv
  }

  /** SetPedWeaponTintIndex */
  function SetTint(inv: Loadout, h: uint32, t: nat): Loadout
  {
    if h in inv then inv[h := inv[h].(tint := t)] else inv
  }

  /** GiveWeaponComponentToPed: attaches the component; the engine may
      leave a different clip behind. */
  function GiveComponent(inv: Loadout, h: uint32, c: uint32, e: Engine): Loadout
  {
    if h in inv
    then inv[h := inv[h].(components := inv[h].components + {c}, clip := e.clipAfterComponent(h, c))]
    else inv
  }

  /** RemoveWeaponComponentFromPed */
  function RemoveComponent(inv: Loadout, h: uint32, c: uint32): Loadout
  {
    if h in inv then inv[h := inv[h].(components := inv[h].components - {c})] else inv
  }

  // ---------------------------------------------------------------------
  // Per-weapon handlers

  /** The state of a weapon the Equip/Remove item has just given. */
  function FreshlyGiven(h: uint32, e: Engine): WeaponState
  {
    var ammo := MaxAmmoOr(e, h, 255);
    WeaponState(e.loadedClip(h, ammo), ammo, {}, 0)
  }

  /** Equip/Remove: the weapon's ownership flips; a weapon that is given
      arrives with its maximum ammo and nothing else changes. */
  function ToggledWeapon(inv: Loadout, h: uint32, e: Engine): (r: Loadout)
    ensures h in r <==> h !in inv
    ensures h in r ==> r[h] == FreshlyGiven(h, e) && r[h].ammo == MaxAmmoOr(e, h, 255)
    ensures AgreeExcept(r, inv, h)
  {
    if h in inv then RemoveWeapon(inv, h) else GiveWeapon(inv, h, MaxAmmoOr(e, h, 255), e)
  }

  /** Equip/Remove is its own inverse on a weapon not owned, and pressing it
      twice on an owned weapon hands it back freshly given. */
  lemma ToggleWeaponTwice(inv: Loadout, h: uint32, e: Engine)
    ensures h !in inv ==> ToggledWeapon(ToggledWeapon(inv, h, e), h, e) == inv
    ensures h in inv ==> ToggledWeapon(ToggledWeapon(inv, h, e), h, e) == inv[h := FreshlyGiven(h, e)]
  {
    var once := ToggledWeapon(inv, h, e);
    var twice := ToggledWeapon(once, h, e);
    if h !in inv {
      assert twice.Keys == inv.Keys;
    } else {
      assert twice.Keys == inv[h := FreshlyGiven(h, e)].Keys;
    }
  }

  /** Toggle Primary Parachute: the parachute's ownership flips; one that is
      given arrives with no ammo, and nothing else changes. */
  function ParachuteToggled(inv: Loadout, ph: uint32, e: Engine): (r: Loadout)
    ensures ph in r <==> ph !in inv
    ensures ph in r ==> r[ph] == WeaponState(e.loadedClip(ph, 0), 0, {}, 0)
    ensures AgreeExcept(r, inv, ph)
  {
    if ph in inv then RemoveWeapon(inv, ph) else GiveWeapon(inv, ph, 0, e)
  }

  /** Toggling the parachute twice restores a loadout without one. */
  lemma ParachuteToggleTwice(inv: Loadout, ph: uint32, e: Engine)
    ensures ph !in inv ==> ParachuteToggled(ParachuteToggled(inv, ph, e), ph, e) == inv
  {
    if ph !in inv {
      assert ParachuteToggled(ParachuteToggled(inv, ph, e), ph, e).Keys == inv.Keys;
    }
  }

  /** Re-fill Ammo on an owned weapon: its ammo becomes the maximum the
      engine reports (900 if it reports none); nothing else changes, and an
      unowned weapon is left alone. */
  function Refilled(inv: Loadout, h: uint32, e: Engine): (r: Loadout)
    ensures r.Keys == inv.Keys
    ensures h in inv ==> r[h] == inv[h].(ammo := MaxAmmoOr(e, h, 900))
    ensures AgreeExcept(r, inv, h)
  {
    SetAmmo(inv, h, MaxAmmoOr(e, h, 900))
  }

  /** Refilling twice is refilling once. */
  lemma RefillIdempotent(inv: Loadout, h: uint32, e: Engine)
    ensures Refilled(Refilled(inv, h, e), h, e) == Refilled(inv, h, e)
  {
  }

  /** Tint change on an owned weapon sets its tint index and nothing else. */
  function Tinted(inv: Loadout, h: uint32, t: nat): (r: Loadout)
    ensures r.Keys == inv.Keys
    ensures h in inv ==> r[h] == inv[h].(tint := t)
    ensures AgreeExcept(r, inv, h)
  {
    SetTint(inv, h, t)
  }

  /** Scrolling through tints leaves the last one chosen. */
  lemma TintLastWins(inv: Loadout, h: uint32, t1: nat, t2: nat)
    ensures Tinted(Tinted(inv, h, t1), h, t2) == Tinted(inv, h, t2)
  {
  }

  /** EquipWeaponComponent: read total and clip ammo, give the component,
      then put both counts back. */
  function EquippedComponent(inv: Loadout, h: uint32, c: uint32, e: Engine): (r: Loadout)
    ensures r.Keys == inv.Keys
    ensures h in inv ==> r[h] == inv[h].(components := inv[h].components + {c})
    ensures AgreeExcept(r, inv, h)
  {
    var ammo := if h in inv then inv[h].ammo else 0;
    var clip := if h in inv then inv[h].clip else e.maxClip(h);
    SetAmmo(SetClip(GiveComponent(inv, h, c, e), h, clip), h, ammo)
  }

  /** Component toggle on an owned weapon: a fitted component is removed,
      a missing one equipped; clip, ammo and tint are kept either way. */
  function ComponentToggled(inv: Loadout, h: uint32, c: uint32, e: Engine): (r: Loadout)
    ensures r.Keys == inv.Keys
    ensures h !in inv ==> r == inv
    ensures h in inv ==> (c in r[h].components <==> c !in inv[h].components)
    ensures h in inv ==> r[h].components - {c} == inv[h].components - {c}
    ensures h in inv ==> r[h].clip == inv[h].clip && r[h].ammo == inv[h].ammo && r[h].tint == inv[h].tint
    ensures AgreeExcept(r, inv, h)
  {
    if h !in inv then inv
    else if c in inv[h].components then RemoveComponent(inv, h, c)
    else EquippedComponent(inv, h, c, e)
  }

  /** Toggling the same component twice restores the inventory exactly. */
  lemma ComponentToggleTwice(inv: Loadout, h: uint32, c: uint32, e: Engine)
    ensures ComponentToggled(ComponentToggled(inv, h, c, e), h, c, e) == inv
  {
    var twice := ComponentToggled(ComponentToggled(inv, h, c, e), h, c, e);
    if h in inv {
      var s := inv[h];
      var t := twice[h];
      if c in s.components {
        assert t.components == s.components - {c} + {c} == s.components;
      } else {
        assert t.components == s.components + {c} - {c} == s.components;
      }
      assert t == s;
    }
    assert twice.Keys == inv.Keys;
  }

  /** On a weapon the player does not own, refill, tint change and
      component toggle leave the inventory exactly as it was, while
      Equip/Remove gives the weapon. */
  lemma PossessionGuard(inv: Loadout, h: uint32, t: nat, c: uint32, e: Engine)
    requires h !in inv
    ensures Refilled(inv, h, e) == inv
    ensures Tinted(inv, h, t) == inv
    ensures ComponentToggled(inv, h, c, e) == inv
    ensures h in ToggledWeapon(inv, h, e)
  {
    assert Refilled(inv, h, e).Keys == inv.Keys;
    assert Tinted(inv, h, t).Keys == inv.Keys;
  }

  // ---------------------------------------------------------------------
  // Get All Weapons and Refill All Ammo

  /** One iteration of the Get All loops: give the weapon with its default
      max ammo, fill its clip, then set its ammo to what GetMaxAmmo reports
      (0 if it reports nothing). */
  function Armed(inv: Loadout, w: WeaponDef, e: Engine): (r: Loadout)
    ensures r.Keys == inv.Keys + {w.hash}
    ensures r[w.hash].clip == e.maxClip(w.hash) && r[w.hash].ammo == MaxAmmoOr(e, w.hash, 0)
    ensures w.hash in inv ==> r[w.hash].components == inv[w.hash].components && r[w.hash].tint == inv[w.hash].tint
    ensures forall k {:trigger r[k]} :: k in inv && k != w.hash ==> r[k] == inv[k]
  {
    var h := w.hash;
    SetAmmo(SetClip(GiveWeapon(inv, h, w.defaultMaxAmmo, e), h, e.maxClip(h)), h, MaxAmmoOr(e, h, 0))
  }

  /** Arms every weapon of `ws`, in order. */
  function ArmedAll(inv: Loadout, ws: seq<WeaponDef>, e: Engine): Loadout
    decreases |ws|
  {
    if ws == [] then inv else Armed(ArmedAll(inv, ws[..|ws| - 1], e), ws[|ws| - 1], e)
  }

  /** The base weapons Get All gives: those whose permission holds, in order. */
  function Permitted(ws: seq<WeaponDef>, allowed: Permission -> bool): seq<WeaponDef>
    decreases |ws|
  {
    if ws == [] then []
    else Permitted(ws[..|ws| - 1], allowed) + (if allowed(ws[|ws| - 1].perm) then [ws[|ws| - 1]] else [])
  }

  function HashesOf(ws: seq<WeaponDef>): set<uint32>
  {
    set w | w in ws :: w.hash
  }

  /** The hashes of a non-empty list: those of all but its last weapon, and the last one's. */
  lemma HashesOfSnoc(ws: seq<WeaponDef>)
    requires ws != []
    ensures HashesOf(ws) == HashesOf(ws[..|ws| - 1]) + {ws[|ws| - 1].hash}
  {
    assert ws == ws[..|ws| - 1] + [ws[|ws| - 1]];
  }

  /** Exactly the permitted weapons of the list survive the filter. */
  lemma {:induction false} PermittedMembers(ws: seq<WeaponDef>, allowed: Permission -> bool)
    ensures forall w :: w in Permitted(ws, allowed) <==> w in ws && allowed(w.perm)
    decreases |ws|
  {
    if ws != [] {
      var init := ws[..|ws| - 1];
      PermittedMembers(init, allowed);
      assert ws == init + [ws[|ws| - 1]];
    }
  }

  /** Arming a list owns exactly what was owned plus the list's weapons. */
  lemma {:induction false} ArmedAllKeys(inv: Loadout, ws: seq<WeaponDef>, e: Engine)
    ensures ArmedAll(inv, ws, e).Keys == inv.Keys + HashesOf(ws)
    decreases |ws|
  {
    if ws != [] {
      ArmedAllKeys(inv, ws[..|ws| - 1], e);
      HashesOfSnoc(ws);
    }
  }

  /** Every weapon of the list ends with a full clip and its maximum ammo. */
  lemma {:induction false} ArmedAllFull(inv: Loadout, ws: seq<WeaponDef>, e: Engine, h: uint32)
    requires h in HashesOf(ws)
    ensures h in ArmedAll(inv, ws, e)
    ensures ArmedAll(inv, ws, e)[h].clip == e.maxClip(h) && ArmedAll(inv, ws, e)[h].ammo == MaxAmmoOr(e, h, 0)
    decreases |ws|
  {
    HashesOfSnoc(ws);
    if h != ws[|ws| - 1].hash {
      ArmedAllFull(inv, ws[..|ws| - 1], e, h);
    }
  }

  /** A weapon the list does not name keeps its state. */
  lemma {:induction false} ArmedAllUntouched(inv: Loadout, ws: seq<WeaponDef>, e: Engine, h: uint32)
    requires h in inv && h !in HashesOf(ws)
    ensures h in ArmedAll(inv, ws, e) && ArmedAll(inv, ws, e)[h] == inv[h]
    decreases |ws|
  {
    if ws != [] {
      HashesOfSnoc(ws);
      ArmedAllUntouched(inv, ws[..|ws| - 1], e, h);
    }
  }

  /** A weapon owned before keeps its components and tint. */
  lemma {:induction false} ArmedAllKeepsFittings(inv: Loadout, ws: seq<WeaponDef>, e: Engine, h: uint32)
    requires h in inv
    ensures h in ArmedAll(inv, ws, e)
    ensures ArmedAll(inv, ws, e)[h].components == inv[h].components && ArmedAll(inv, ws, e)[h].tint == inv[h].tint
    decreases |ws|
  {
    if ws != [] {
      ArmedAllKeepsFittings(inv, ws[..|ws| - 1], e, h);
    }
  }

  /** Arming a list adds exactly its weapons, each full, and leaves every
      other weapon as it was; components and tints survive. */
  lemma ArmedAllSpec(inv: Loadout, ws: seq<WeaponDef>, e: Engine)
    ensures ArmedAll(inv, ws, e).Keys == inv.Keys + HashesOf(ws)
    ensures forall h :: h in HashesOf(ws) ==>
              ArmedAll(inv, ws, e)[h].clip == e.maxClip(h) && ArmedAll(inv, ws, e)[h].ammo == MaxAmmoOr(e, h, 0)
    ensures forall h :: h in inv && h !in HashesOf(ws) ==> ArmedAll(inv, ws, e)[h] == inv[h]
    ensures forall h :: h in inv ==>
              ArmedAll(inv, ws, e)[h].components == inv[h].components && ArmedAll(inv, ws, e)[h].tint == inv[h].tint
  {
    ArmedAllKeys(inv, ws, e);
    forall h | h in HashesOf(ws)
      ensures ArmedAll(inv, ws, e)[h].clip == e.maxClip(h) && ArmedAll(inv, ws, e)[h].ammo == MaxAmmoOr(e, h, 0)
    {
      ArmedAllFull(inv, ws, e, h);
    }
    forall h | h in inv && h !in HashesOf(ws)
      ensures ArmedAll(inv, ws, e)[h] == inv[h]
    {
      ArmedAllUntouched(inv, ws, e, h);
    }
    forall h | h in inv
      ensures ArmedAll(inv, ws, e)[h].components == inv[h].components && ArmedAll(inv, ws, e)[h].tint == inv[h].tint
    {
      ArmedAllKeepsFittings(inv, ws, e, h);
    }
  }

  /** Unfolding the folds one weapon at the end, as the loops advance. */
  lemma PermittedSnoc(ws: seq<WeaponDef>, w: WeaponDef, allowed: Permission -> bool)
    ensures Permitted(ws + [w], allowed) == Permitted(ws, allowed) + (if allowed(w.perm) then [w] else [])
  {
    assert (ws + [w])[..|ws|] == ws;
  }

  lemma ArmedAllSnoc(inv: Loadout, ws: seq<WeaponDef>, w: WeaponDef, e: Engine)
    ensures ArmedAll(inv, ws + [w], e) == Armed(ArmedAll(inv, ws, e), w, e)
  {
    assert (ws + [w])[..|ws|] == ws;
  }

  lemma ReloadedAllSnoc(inv: Loadout, ws: seq<WeaponDef>, w: WeaponDef, e: Engine)
    ensures ReloadedAll(inv, ws + [w], e) == Reloaded(ReloadedAll(inv, ws, e), w.hash, e)
  {
    assert (ws + [w])[..|ws|] == ws;
  }

  /** The loadout after Get All: the permitted base weapons, then every addon
      weapon, each armed in list order. */
  function GetAllResult(inv: Loadout, data: WeaponData, allowed: Permission -> bool, e: Engine): Loadout
  {
    ArmedAll(ArmedAll(inv, Permitted(data.weapons, allowed), e), data.addons, e)
  }

  /** Get All gives every permitted base weapon and every addon weapon (which
      has no permission check) with full clip and maximum ammo, adds nothing
      else, and leaves weapons outside both lists untouched. */
  lemma GetAllSpec(inv: Loadout, data: WeaponData, allowed: Permission -> bool, e: Engine)
    ensures forall w :: w in data.weapons && allowed(w.perm) ==>
              w.hash in GetAllResult(inv, data, allowed, e)
              && GetAllResult(inv, data, allowed, e)[w.hash].clip == e.maxClip(w.hash)
              && GetAllResult(inv, data, allowed, e)[w.hash].ammo == MaxAmmoOr(e, w.hash, 0)
    ensures forall a :: a in data.addons ==>
              a.hash in GetAllResult(inv, data, allowed, e)
              && GetAllResult(inv, data, allowed, e)[a.hash].clip == e.maxClip(a.hash)
              && GetAllResult(inv, data, allowed, e)[a.hash].ammo == MaxAmmoOr(e, a.hash, 0)
    ensures GetAllResult(inv, data, allowed, e).Keys
              == inv.Keys + HashesOf(Permitted(data.weapons, allowed)) + HashesOf(data.addons)
    ensures forall h :: h in inv && h !in HashesOf(Permitted(data.weapons, allowed)) && h !in HashesOf(data.addons) ==>
              GetAllResult(inv, data, allowed, e)[h] == inv[h]
  {
    var base := Permitted(data.weapons, allowed);
    var mid := ArmedAll(inv, base, e);
    PermittedMembers(data.weapons, allowed);
    ArmedAllSpec(inv, base, e);
    ArmedAllSpec(mid, data.addons, e);
    forall w | w in data.weapons && allowed(w.perm)
      ensures w.hash in HashesOf(base)
    {
      assert w in base;
    }
    forall a | a in data.addons
      ensures a.hash in HashesOf(data.addons)
    {
    }
  }

  /** One iteration of the Refill All loops: an owned weapon gets a full clip
      and its maximum ammo; an unowned one is skipped. */
  function Reloaded(inv: Loadout, h: uint32, e: Engine): (r: Loadout)
    ensures r.Keys == inv.Keys
    ensures h in inv ==> r[h] == inv[h].(clip := e.maxClip(h), ammo := MaxAmmoOr(e, h, 0))
    ensures forall k {:trigger r[k]} :: k in inv && k != h ==> r[k] == inv[k]
  {
    if h in inv then SetAmmo(SetClip(inv, h, e.maxClip(h)), h, MaxAmmoOr(e, h, 0)) else inv
  }

  /** Reloads every weapon of `ws` the player owns, in order. */
  function ReloadedAll(inv: Loadout, ws: seq<WeaponDef>, e: Engine): Loadout
    decreases |ws|
  {
    if ws == [] then inv else Reloaded(ReloadedAll(inv, ws[..|ws| - 1], e), ws[|ws| - 1].hash, e)
  }

  /** Reloading a list gives no new weapon, fills the owned weapons it names
      and leaves everything else alone. */
  lemma {:induction false} ReloadedAllSpec(inv: Loadout, ws: seq<WeaponDef>, e: Engine)
    ensures ReloadedAll(inv, ws, e).Keys == inv.Keys
    ensures forall h :: h in inv && h in HashesOf(ws) ==>
              ReloadedAll(inv, ws, e)[h] == inv[h].(clip := e.maxClip(h), ammo := MaxAmmoOr(e, h, 0))
    ensures forall h :: h in inv && h !in HashesOf(ws) ==> ReloadedAll(inv, ws, e)[h] == inv[h]
    decreases |ws|
  {
    if ws != [] {
      ReloadedAllSpec(inv, ws[..|ws| - 1], e);
      HashesOfSnoc(ws);
    }
  }

  /** The loadout after Refill All: the base list, then the addon list. */
  function RefillAllResult(inv: Loadout, data: WeaponData, e: Engine): Loadout
  {
    ReloadedAll(ReloadedAll(inv, data.weapons, e), data.addons, e)
  }

  /** Refill All touches only weapons already owned: it gives none, fills
      every owned weapon named in either list, and leaves the rest alone. */
  lemma RefillAllSpec(inv: Loadout, data: WeaponData, e: Engine)
    ensures RefillAllResult(inv, data, e).Keys == inv.Keys
    ensures forall h :: h in inv && (h in HashesOf(data.weapons) || h in HashesOf(data.addons)) ==>
              RefillAllResult(inv, data, e)[h] == inv[h].(clip := e.maxClip(h), ammo := MaxAmmoOr(e, h, 0))
    ensures forall h :: h in inv && h !in HashesOf(data.weapons) && h !in HashesOf(data.addons) ==>
              RefillAllResult(inv, data, e)[h] == inv[h]
  {
    ReloadedAllSpec(inv, data.weapons, e);
    ReloadedAllSpec(ReloadedAll(inv, data.weapons, e), data.addons, e);
  }
}
