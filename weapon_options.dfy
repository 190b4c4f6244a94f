/** The Weapon Options menu object: its lazily built menu tree, its four
    user-facing flags, and the handlers its items run against the player. */
module WeaponOptionsMenu {
  import opened Types
  import opened Inventory
  import opened MenuTree
  import opened Parachute

  /** Feedback a handler shows the player, as a subtitle or an error
      notification. */
  datatype Notice =
    | Silent
    | WeaponAdded
    | WeaponRemoved
    | NeedWeaponToRefill
    | NeedWeaponForTint
    | NeedWeaponToModify
    | ComponentEquipped
    | ComponentRemoved
    | NoReloadNow(enabled: bool)
    | UnlimitedAmmoNow(enabled: bool)
    | PrimaryParachuteAdded
    | PrimaryParachuteRemoved
    | ReserveParachuteAdded

  /** The local player and their ped, as far as the menu's natives touch
      them. `current` is the weapon most recently made current. */
  class Player {
    var weapons: Loadout
    var current: uint32
    var hasReserveParachute: bool
    var canLeaveSmokeTrail: bool
    var smokeTrailColor: Rgb
    var parachuteTint: nat
    var reserveParachuteTint: nat
  }

  class WeaponOptions {
    /** The menu tree, built on first request. */
    var menu: Option<WeaponsMenu>

    var unlimitedAmmo: bool
    var noReload: bool
    var autoEquipChute: bool
    var unlimitedParachutes: bool

    /** A smoke colour change is waiting out its four seconds. */
    var switching: bool
    /** The smoke list index the waiting change will apply. */
    var pendingSmokeIndex: nat

    var primaryChuteDescription: string
    var reserveChuteDescription: string

    predicate Valid()
      reads this
    {
      pendingSmokeIndex < |SmokeColors|
    }

    /** The smoke-trail state the smoke handler works on. */
    function SmokeOf(player: Player): Smoke
      reads this, player
    {
      Smoke(switching, pendingSmokeIndex, player.canLeaveSmokeTrail, player.smokeTrailColor)
    }

    /** The four flags start from the user's saved defaults; no menu yet. */
    constructor(unlimitedAmmo0: bool, noReload0: bool, autoEquipChute0: bool, unlimitedParachutes0: bool)
      ensures Valid() && menu.None? && !switching
      ensures unlimitedAmmo == unlimitedAmmo0 && noReload == noReload0
      ensures autoEquipChute == autoEquipChute0 && unlimitedParachutes == unlimitedParachutes0
    {
      menu := None;
      unlimitedAmmo := unlimitedAmmo0;
      noReload := noReload0;
      autoEquipChute := autoEquipChute0;
      unlimitedParachutes := unlimitedParachutes0;
      switching := false;
      pendingSmokeIndex := 0;
      primaryChuteDescription := "";
      reserveChuteDescription := "";
    }

    // -------------------------------------------------------------------
    // Building the menu

    /** Builds the whole tree: the addon submenus, the parachute submenu's
        state when permitted, the category submenus and the main entries. */
    method CreateMenu(data: WeaponData, allowed: Permission -> bool, e: Engine)
      modifies this`menu, this`switching, this`primaryChuteDescription, this`reserveChuteDescription
      ensures menu == Some(BuildMenu(data, allowed, e))
      ensures allowed(WPParachute) ==>
        (!switching
         && primaryChuteDescription == ChuteListDescription(false, e.labelText, 0)
         && reserveChuteDescription == ChuteListDescription(true, e.labelText, 0))
      ensures !allowed(WPParachute) ==> unchanged(this`switching, this`primaryChuteDescription, this`reserveChuteDescription)
    {
      var addons := BuildAddonMenus(data.addons, allowed, data.addonRegistrySize);
      if allowed(WPParachute) {
        primaryChuteDescription := "Primary chute: " + ChuteDescription(e.labelText, 0);
        reserveChuteDescription := "Reserve chute: " + ChuteDescription(e.labelText, 0);
        switching := false;
      }
      var cats := BuildCategoryMenus(data.weapons, allowed, e);
      menu := Some(WeaponsMenu(MainEntries(allowed, addons, cats), addons, ParachuteMenu(allowed), cats));
    }

    /** The menu is built on the first call and the same tree is returned by
        every later call. */
    method GetMenu(data: WeaponData, allowed: Permission -> bool, e: Engine) returns (m: WeaponsMenu)
      modifies this`menu, this`switching, this`primaryChuteDescription, this`reserveChuteDescription
      ensures menu == Some(m)
      ensures old(menu).None? ==> m == BuildMenu(data, allowed, e)
      ensures old(menu).None? && allowed(WPParachute) ==>
        (!switching
         && primaryChuteDescription == ChuteListDescription(false, e.labelText, 0)
         && reserveChuteDescription == ChuteListDescription(true, e.labelText, 0))
      ensures old(menu).None? && !allowed(WPParachute) ==>
        unchanged(this`switching, this`primaryChuteDescription, this`reserveChuteDescription)
      ensures old(menu).Some? ==> m == old(menu).value && unchanged(this)
    {
      if menu.None? {
        CreateMenu(data, allowed, e);
      }
      m := menu.value;
    }

    // -------------------------------------------------------------------
    // Per-weapon submenus (base and addon alike)

    /** EquipWeaponComponent: fit the component without losing ammo, by
        reading total and clip ammo first and putting both back after. */
    method EquipWeaponComponent(player: Player, h: uint32, c: uint32, e: Engine)
      modifies player`weapons
      ensures player.weapons == EquippedComponent(old(player.weapons), h, c, e)
    {
      var ammo := if h in player.weapons then player.weapons[h].ammo else 0;
      var clipAmmo := e.maxClip(h);
      if h in player.weapons {
        clipAmmo := player.weapons[h].clip;
      }
      player.weapons := GiveComponent(player.weapons, h, c, e);
      player.weapons := SetClip(player.weapons, h, clipAmmo);
      player.weapons := SetAmmo(player.weapons, h, ammo);
    }

    /** A press in a weapon's submenu: the weapon becomes current, then the
        pressed item acts on it; an action that needs the weapon reports
        its absence instead. Only an enabled entry of the weapon's own submenu
        can be pressed; a press on the Tints list is a list select, which
        weapon submenus do not handle, so it never arrives here. */
    method OnWeaponItemSelect(player: Player, wm: WeaponMenu, item: Item, e: Engine) returns (notice: Notice)
      requires Entry(item, true) in wm.entries && !item.TintSelector?
      modifies player`weapons, player`current
      ensures player.current == wm.weapon.hash
      ensures item == EquipRemove ==>
        player.weapons == ToggledWeapon(old(player.weapons), wm.weapon.hash, e)
        && notice == (if wm.weapon.hash in old(player.weapons) then WeaponRemoved else WeaponAdded)
      ensures item == RefillAmmo ==>
        player.weapons == Refilled(old(player.weapons), wm.weapon.hash, e)
        && notice == (if wm.weapon.hash in old(player.weapons) then Silent else NeedWeaponToRefill)
      ensures item.ComponentToggle? ==>
        player.weapons == ComponentToggled(old(player.weapons), wm.weapon.hash, item.hash, e)
        && notice == (if wm.weapon.hash !in old(player.weapons) then NeedWeaponToModify
                      else if item.hash in old(player.weapons)[wm.weapon.hash].components then ComponentRemoved
                      else ComponentEquipped)
    {
      var h := wm.weapon.hash;
      player.current := h;
      notice := Silent;
      match item
      case EquipRemove =>
        if h in player.weapons {
          player.weapons := RemoveWeapon(player.weapons, h);
          notice := WeaponRemoved;
        } else {
          var ammo := MaxAmmoOr(e, h, 255);
          player.weapons := GiveWeapon(player.weapons, h, ammo, e);
          notice := WeaponAdded;
        }
      case RefillAmmo =>
        if h in player.weapons {
          var ammo := MaxAmmoOr(e, h, 900);
          player.weapons := SetAmmo(player.weapons, h, ammo);
        } else {
          notice := NeedWeaponToRefill;
        }
      case ComponentToggle(_, c) =>
        if h in player.weapons {
          player.current := h;
          if c in player.weapons[h].components {
            player.weapons := RemoveComponent(player.weapons, h, c);
            notice := ComponentRemoved;
          } else {
            EquipWeaponComponent(player, h, c, e);
            notice := ComponentEquipped;
          }
        } else {
          notice := NeedWeaponToModify;
        }
    }

    /** Scrolling the Tints list of a weapon's submenu applies the tint if
        the weapon is owned, and reports it missing otherwise. */
    method OnWeaponListChange(player: Player, wm: WeaponMenu, newIndex: nat) returns (notice: Notice)
      modifies player`weapons
      ensures player.weapons == Tinted(old(player.weapons), wm.weapon.hash, newIndex)
      ensures notice == (if wm.weapon.hash in old(player.weapons) then Silent else NeedWeaponForTint)
    {
      var h := wm.weapon.hash;
      notice := Silent;
      if h in player.weapons {
        player.weapons := SetTint(player.weapons, h, newIndex);
      } else {
        notice := NeedWeaponForTint;
      }
    }

    // -------------------------------------------------------------------
    // Main menu

    /** The base-weapon loop of Get All Weapons: each weapon whose
        permission holds is given with its default max ammo, its clip is
        filled, and its ammo set to what GetMaxAmmo reports. */
    method ArmPermitted(player: Player, ws: seq<WeaponDef>, allowed: Permission -> bool, e: Engine)
      modifies player`weapons
      ensures player.weapons == ArmedAll(old(player.weapons), Permitted(ws, allowed), e)
    {
      ghost var start := player.weapons;
      for i := 0 to |ws|
        invariant player.weapons == ArmedAll(start, Permitted(ws[..i], allowed), e)
      {
        var vw := ws[i];
        ghost var before := player.weapons;
        assert ws[..i + 1] == ws[..i] + [vw];
        PermittedSnoc(ws[..i], vw, allowed);
        if allowed(vw.perm) {
          ArmedAllSnoc(start, Permitted(ws[..i], allowed), vw, e);
          player.weapons := GiveWeapon(player.weapons, vw.hash, vw.defaultMaxAmmo, e);
          var ammoInClip := e.maxClip(vw.hash);
          player.weapons := SetClip(player.weapons, vw.hash, ammoInClip);
          var ammo := MaxAmmoOr(e, vw.hash, 0);
          player.weapons := SetAmmo(player.weapons, vw.hash, ammo);
          assert player.weapons == Armed(before, vw, e);
        } else {
          assert Permitted(ws[..i + 1], allowed) == Permitted(ws[..i], allowed);
        }
      }
      assert ws[..|ws|] == ws;
    }

    /** The addon-weapon loop of Get All Weapons: the same steps for every
        addon weapon, with no permission test. */
    method ArmEvery(player: Player, ws: seq<WeaponDef>, e: Engine)
      modifies player`weapons
      ensures player.weapons == ArmedAll(old(player.weapons), ws, e)
    {
      ghost var start := player.weapons;
      for i := 0 to |ws|
        invariant player.weapons == ArmedAll(start, ws[..i], e)
      {
        var avw := ws[i];
        ghost var before := player.weapons;
        assert ws[..i + 1] == ws[..i] + [avw];
        ArmedAllSnoc(start, ws[..i], avw, e);
        player.weapons := GiveWeapon(player.weapons, avw.hash, avw.defaultMaxAmmo, e);
        var ammoInClip := e.maxClip(avw.hash);
        player.weapons := SetClip(player.weapons, avw.hash, ammoInClip);
        var ammo := MaxAmmoOr(e, avw.hash, 0);
        player.weapons := SetAmmo(player.weapons, avw.hash, ammo);
        assert player.weapons == Armed(before, avw, e);
      }
      assert ws[..|ws|] == ws;
    }

    /** Get All Weapons: the permitted base weapons, then every addon
        weapon, then the player is left unarmed. */
    method GiveAllWeapons(player: Player, data: WeaponData, allowed: Permission -> bool, e: Engine)
      modifies player`weapons, player`current
      ensures player.weapons == GetAllResult(old(player.weapons), data, allowed, e)
      ensures player.current == e.hashKey("weapon_unarmed")
    {
      ArmPermitted(player, data.weapons, allowed, e);
      ArmEvery(player, data.addons, e);
      player.current := e.hashKey("weapon_unarmed");
    }

    /** One loop of Refill All Ammo: each listed weapon the player owns gets
        a full clip and its maximum ammo. */
    method ReloadOwned(player: Player, ws: seq<WeaponDef>, e: Engine)
      modifies player`weapons
      ensures player.weapons == ReloadedAll(old(player.weapons), ws, e)
    {
      ghost var start := player.weapons;
      for i := 0 to |ws|
        invariant player.weapons == ReloadedAll(start, ws[..i], e)
      {
        var vw := ws[i];
        assert ws[..i + 1] == ws[..i] + [vw];
        ReloadedAllSnoc(start, ws[..i], vw, e);
        if vw.hash in player.weapons {
          var ammoInClip := e.maxClip(vw.hash);
          player.weapons := SetClip(player.weapons, vw.hash, ammoInClip);
          var ammo := MaxAmmoOr(e, vw.hash, 0);
          player.weapons := SetAmmo(player.weapons, vw.hash, ammo);
        }
      }
      assert ws[..|ws|] == ws;
    }

    /** Refill All Ammo: the base list, then the addon list. */
    method RefillAll(player: Player, data: WeaponData, e: Engine)
      modifies player`weapons
      ensures player.weapons == RefillAllResult(old(player.weapons), data, e)
    {
      ReloadOwned(player, data.weapons, e);
      ReloadOwned(player, data.addons, e);
    }

    /** A press on the main menu. Set All Ammo Count and Spawn Weapon By
        Name hand over to dialogs outside this model and change nothing
        here. */
    method OnMainItemSelect(player: Player, item: MainItem, data: WeaponData, allowed: Permission -> bool, e: Engine)
      modifies player`weapons, player`current
      ensures item == GetAllWeapons ==>
        player.weapons == GetAllResult(old(player.weapons), data, allowed, e)
        && player.current == e.hashKey("weapon_unarmed")
      ensures item == RemoveAllWeapons ==> player.weapons == map[] && player.current == old(player.current)
      ensures item == RefillAllAmmo ==>
        player.weapons == RefillAllResult(old(player.weapons), data, e) && player.current == old(player.current)
      ensures item !in {GetAllWeapons, RemoveAllWeapons, RefillAllAmmo} ==>
        player.weapons == old(player.weapons) && player.current == old(player.current)
    {
      if item == GetAllWeapons {
        GiveAllWeapons(player, data, allowed, e);
      } else if item == RemoveAllWeapons {
        player.weapons := map[];
      } else if item == RefillAllAmmo {
        RefillAll(player, data, e);
      }
    }

    /** A main-menu checkbox sets only its own flag and announces it. */
    method OnMainCheckboxChange(item: MainItem, checked: bool) returns (notice: Notice)
      modifies this`noReload, this`unlimitedAmmo
      ensures item == NoReloadBox ==>
        noReload == checked && unlimitedAmmo == old(unlimitedAmmo) && notice == NoReloadNow(checked)
      ensures item == UnlimitedAmmoBox ==>
        unlimitedAmmo == checked && noReload == old(noReload) && notice == UnlimitedAmmoNow(checked)
      ensures item !in {NoReloadBox, UnlimitedAmmoBox} ==> unchanged(this) && notice == Silent
    {
      notice := Silent;
      if item == NoReloadBox {
        noReload := checked;
        notice := NoReloadNow(checked);
      } else if item == UnlimitedAmmoBox {
        unlimitedAmmo := checked;
        notice := UnlimitedAmmoNow(checked);
      }
    }

    // -------------------------------------------------------------------
    // Parachute Options

    /** Toggle Primary Parachute flips the parachute's ownership; Enable
        Reserve Parachute grants the reserve, which is never taken back. */
    method OnParachuteItemSelect(player: Player, item: ParachuteItem, e: Engine) returns (notice: Notice)
      modifies player`weapons, player`hasReserveParachute
      ensures item == TogglePrimary ==>
        player.weapons == ParachuteToggled(old(player.weapons), e.hashKey("gadget_parachute"), e)
        && player.hasReserveParachute == old(player.hasReserveParachute)
        && notice == (if e.hashKey("gadget_parachute") in old(player.weapons)
                      then PrimaryParachuteRemoved else PrimaryParachuteAdded)
      ensures item == EnableReserve ==>
        player.hasReserveParachute && player.weapons == old(player.weapons) && notice == ReserveParachuteAdded
      ensures item !in {TogglePrimary, EnableReserve} ==> unchanged(player) && notice == Silent
    {
      notice := Silent;
      if item == TogglePrimary {
        var ph := e.hashKey("gadget_parachute");
        if ph in player.weapons {
          notice := PrimaryParachuteRemoved;
          player.weapons := RemoveWeapon(player.weapons, ph);
        } else {
          notice := PrimaryParachuteAdded;
          player.weapons := GiveWeapon(player.weapons, ph, 0, e);
        }
      } else if item == EnableReserve {
        player.hasReserveParachute := true;
        notice := ReserveParachuteAdded;
      }
    }

    /** A parachute checkbox sets only its own flag. */
    method OnParachuteCheckboxChange(item: ParachuteItem, checked: bool)
      modifies this`unlimitedParachutes, this`autoEquipChute
      ensures item == UnlimitedParachutesBox ==>
        unlimitedParachutes == checked && autoEquipChute == old(autoEquipChute)
      ensures item == AutoEquipBox ==>
        autoEquipChute == checked && unlimitedParachutes == old(unlimitedParachutes)
      ensures item !in {UnlimitedParachutesBox, AutoEquipBox} ==> unchanged(this)
    {
      if item == UnlimitedParachutesBox {
        unlimitedParachutes := checked;
      } else if item == AutoEquipBox {
        autoEquipChute := checked;
      }
    }

    /** The shared list handler, up to the smoke change's wait. A select on
        the smoke list (old index -1) starts a colour change unless one is
        running; a style list applies the chosen style and shows its
        description. Scrolling the smoke list does nothing. */
    method OnParachuteListChange(player: Player, item: ParachuteItem, oldIndex: int, newIndex: nat, e: Engine)
      requires Valid()
      requires item == SmokeColorList ==> newIndex < |SmokeColors|
      requires item in {PrimaryChuteList, ReserveChuteList} ==> newIndex < ChuteStyleCount
      modifies this`switching, this`pendingSmokeIndex, this`primaryChuteDescription, this`reserveChuteDescription
      modifies player`canLeaveSmokeTrail, player`parachuteTint, player`reserveParachuteTint
      ensures Valid()
      ensures item == SmokeColorList ==> SmokeOf(player) == SmokeRequested(old(SmokeOf(player)), oldIndex, newIndex)
      ensures item != SmokeColorList ==> SmokeOf(player) == old(SmokeOf(player))
      ensures item == PrimaryChuteList ==>
        primaryChuteDescription == ChuteListDescription(false, e.labelText, newIndex)
        && player.parachuteTint == newIndex
      ensures item != PrimaryChuteList ==>
        primaryChuteDescription == old(primaryChuteDescription) && player.parachuteTint == old(player.parachuteTint)
      ensures item == ReserveChuteList ==>
        reserveChuteDescription == ChuteListDescription(true, e.labelText, newIndex)
        && player.reserveParachuteTint == newIndex
      ensures item != ReserveChuteList ==>
        reserveChuteDescription == old(reserveChuteDescription)
        && player.reserveParachuteTint == old(player.reserveParachuteTint)
    {
      if item == SmokeColorList && oldIndex == -1 {
        if !switching {
          switching := true;
          player.canLeaveSmokeTrail := false;
          pendingSmokeIndex := newIndex;
        }
      } else if item == PrimaryChuteList {
        primaryChuteDescription := "Primary chute: " + ChuteDescription(e.labelText, newIndex);
        player.parachuteTint := newIndex;
      } else if item == ReserveChuteList {
        reserveChuteDescription := "Reserve chute: " + ChuteDescription(e.labelText, newIndex);
        player.reserveParachuteTint := newIndex;
      }
    }

    /** Selecting a list entry runs the list handler with old index -1. */
    method OnParachuteListSelect(player: Player, item: ParachuteItem, index: nat, e: Engine)
      requires Valid()
      requires item == SmokeColorList ==> index < |SmokeColors|
      requires item in {PrimaryChuteList, ReserveChuteList} ==> index < ChuteStyleCount
      modifies this`switching, this`pendingSmokeIndex, this`primaryChuteDescription, this`reserveChuteDescription
      modifies player`canLeaveSmokeTrail, player`parachuteTint, player`reserveParachuteTint
      ensures Valid()
      ensures item == SmokeColorList ==> SmokeOf(player) == SmokeRequested(old(SmokeOf(player)), -1, index)
      ensures item != SmokeColorList ==> SmokeOf(player) == old(SmokeOf(player))
      ensures item == PrimaryChuteList ==>
        primaryChuteDescription == ChuteListDescription(false, e.labelText, index) && player.parachuteTint == index
      ensures item != PrimaryChuteList ==>
        primaryChuteDescription == old(primaryChuteDescription) && player.parachuteTint == old(player.parachuteTint)
      ensures item == ReserveChuteList ==>
        reserveChuteDescription == ChuteListDescription(true, e.labelText, index) && player.reserveParachuteTint == index
      ensures item != ReserveChuteList ==>
        reserveChuteDescription == old(reserveChuteDescription)
        && player.reserveParachuteTint == old(player.reserveParachuteTint)
    {
      OnParachuteListChange(player, item, -1, index, e);
    }

    /** The smoke handler after its four-second wait: the remembered colour
        is applied, the trail allowed unless "no smoke" was chosen, and the
        change ends. */
    method CompleteSmokeColorChange(player: Player)
      requires Valid() && switching
      modifies this`switching, player`smokeTrailColor, player`canLeaveSmokeTrail
      ensures Valid()
      ensures SmokeOf(player) == SmokeApplied(old(SmokeOf(player)))
    {
      var color := SmokeColors[pendingSmokeIndex];
      player.smokeTrailColor := color;
      player.canLeaveSmokeTrail := pendingSmokeIndex != 0;
      switching := false;
    }
  }
}
