/** The shape of the Weapon Options menu: the per-weapon submenus, the eight
    category submenus and the addon submenu they are sorted into, the
    parachute submenu, and the main menu's entries with their enabled flags. */
module MenuTree {
  import opened Types
  import opened Categories
  import opened Tints
  import opened Parachute

  /** An entry of a per-weapon submenu. A component toggle carries the hash
      of its component, so a click knows what it refers to. */
  datatype Item =
    | EquipRemove
    | RefillAmmo
    | TintSelector(list: TintList, index: nat)
    | ComponentToggle(name: string, hash: uint32)

  datatype Entry = Entry(item: Item, enabled: bool)

  /** A per-weapon submenu, tagged with the weapon its events refer to. */
  datatype WeaponMenu = WeaponMenu(weapon: WeaponDef, entries: seq<Entry>)

  function ComponentEntries(cs: seq<Component>): seq<Entry>
  {
    seq(|cs|, i requires 0 <= i < |cs| => Entry(ComponentToggle(cs[i].name, cs[i].hash), true))
  }

  /** Equip/Remove, Re-fill Ammo, the tint selector starting at its first
      tint, then one toggle per component in dictionary order. */
  function WeaponSubmenu(w: WeaponDef, tints: TintList, equipEnabled: bool): WeaponMenu
  {
    WeaponMenu(w,
      [Entry(EquipRemove, equipEnabled), Entry(RefillAmmo, true), Entry(TintSelector(tints, 0), true)]
      + ComponentEntries(w.components))
  }

  /** A base weapon's submenu: its Equip/Remove entry is locked without the
      spawn permission. */
  function BaseSubmenu(w: WeaponDef, allowed: Permission -> bool): WeaponMenu
  {
    WeaponSubmenu(w, BaseTintList(w.name), allowed(WPSpawn))
  }

  /** An addon weapon's submenu: only built with the spawn permission, so
      Equip/Remove is never locked. */
  function AddonSubmenu(w: WeaponDef): WeaponMenu
  {
    WeaponSubmenu(w, AddonTintList(w.name), true)
  }

  /** A base weapon's submenu: Equip/Remove is locked iff the spawn
      permission is missing, and the Tints list is the one the first
      matching name pattern selects, starting at its first tint. */
  lemma BaseSubmenuLayout(w: WeaponDef, allowed: Permission -> bool)
    ensures BaseSubmenu(w, allowed).weapon == w
    ensures |BaseSubmenu(w, allowed).entries| == 3 + |w.components|
    ensures BaseSubmenu(w, allowed).entries[0] == Entry(EquipRemove, allowed(WPSpawn))
    ensures BaseSubmenu(w, allowed).entries[1] == Entry(RefillAmmo, true)
    ensures BaseSubmenu(w, allowed).entries[2] == Entry(TintSelector(FirstMatch(w.name, TintPatterns), 0), true)
  {
    BaseTintListIsFirstMatch(w.name);
  }

  /** An addon weapon's submenu: Equip/Remove is never locked, and the Tints
      list is the Mk II list exactly when a base weapon of that name would
      get it, and the default list otherwise. */
  lemma AddonSubmenuLayout(w: WeaponDef)
    ensures AddonSubmenu(w).weapon == w
    ensures |AddonSubmenu(w).entries| == 3 + |w.components|
    ensures AddonSubmenu(w).entries[0] == Entry(EquipRemove, true)
    ensures AddonSubmenu(w).entries[1] == Entry(RefillAmmo, true)
    ensures AddonSubmenu(w).entries[2].enabled && AddonSubmenu(w).entries[2].item.TintSelector?
    ensures AddonSubmenu(w).entries[2].item.index == 0
    ensures (AddonSubmenu(w).entries[2].item.list == MkII) <==> (BaseTintList(w.name) == MkII)
    ensures AddonSubmenu(w).entries[2].item.list in {MkII, Default}
  {
    AddonTintListSpec(w.name);
  }

  /** The component toggles of a weapon's submenu are exactly its
      components, each offered once and never locked. */
  lemma ComponentTogglesMatch(w: WeaponDef, tints: TintList, equipEnabled: bool)
    ensures forall k :: k in w.components ==>
              Entry(ComponentToggle(k.name, k.hash), true) in WeaponSubmenu(w, tints, equipEnabled).entries
    ensures forall en :: en in WeaponSubmenu(w, tints, equipEnabled).entries && en.item.ComponentToggle? ==>
              en.enabled && Component(en.item.name, en.item.hash) in w.components
  {
    var m := WeaponSubmenu(w, tints, equipEnabled);
    var head := [Entry(EquipRemove, equipEnabled), Entry(RefillAmmo, true), Entry(TintSelector(tints, 0), true)];
    assert m.entries == head + ComponentEntries(w.components);
    forall k | k in w.components
      ensures Entry(ComponentToggle(k.name, k.hash), true) in m.entries
    {
      var i :| 0 <= i < |w.components| && w.components[i] == k;
      assert m.entries[3 + i] == Entry(ComponentToggle(k.name, k.hash), true);
    }
    forall en | en in m.entries && en.item.ComponentToggle?
      ensures en.enabled && Component(en.item.name, en.item.hash) in w.components
    {
      var j :| 0 <= j < |m.entries| && m.entries[j] == en;
      assert j >= 3;
      assert w.components[j - 3] == Component(en.item.name, en.item.hash);
    }
  }

  // ---------------------------------------------------------------------
  // Sorting weapons into submenus

  /** The submenus built for the weapons of `ws` that `keep` admits, in list
      order: the shape of each of the source's foreach loops. */
  function Submenus(ws: seq<WeaponDef>, keep: WeaponDef -> bool, build: WeaponDef -> WeaponMenu): seq<WeaponMenu>
    decreases |ws|
  {
    if ws == [] then []
    else Submenus(ws[..|ws| - 1], keep, build)
         + (if keep(ws[|ws| - 1]) then [build(ws[|ws| - 1])] else [])
  }

  /** A submenu is listed iff some admitted weapon of the list builds it. */
  lemma {:induction false} SubmenusExact(ws: seq<WeaponDef>, keep: WeaponDef -> bool, build: WeaponDef -> WeaponMenu)
    ensures forall m :: m in Submenus(ws, keep, build) <==> exists w :: w in ws && keep(w) && m == build(w)
    decreases |ws|
  {
    if ws != [] {
      var init := ws[..|ws| - 1];
      var last := ws[|ws| - 1];
      SubmenusExact(init, keep, build);
      assert ws == init + [last];
      forall m | m in Submenus(ws, keep, build)
        ensures exists w :: w in ws && keep(w) && m == build(w)
      {
        if m !in Submenus(init, keep, build) {
          assert m == build(last) && keep(last);
        } else {
          var w :| w in init && keep(w) && m == build(w);
          assert w in ws;
        }
      }
      forall m, w | w in ws && keep(w) && m == build(w)
        ensures m in Submenus(ws, keep, build)
      {
        if w != last {
          assert w in init;
        }
      }
    }
  }

  /** Nothing is listed iff the filter admits no weapon of the list. */
  lemma SubmenusEmptyIff(ws: seq<WeaponDef>, keep: WeaponDef -> bool, build: WeaponDef -> WeaponMenu)
    ensures Submenus(ws, keep, build) == [] <==> forall w :: w in ws ==> !keep(w)
  {
    SubmenusExact(ws, keep, build);
    var s := Submenus(ws, keep, build);
    if s != [] {
      assert s[0] in s;
    } else {
      forall w | w in ws
        ensures !keep(w)
      {
        assert keep(w) ==> build(w) in s;
      }
    }
  }

  /** A base weapon gets a submenu iff it has a name and its permission holds. */
  predicate HasBaseSubmenu(w: WeaponDef, allowed: Permission -> bool)
  {
    w.name != "" && allowed(w.perm)
  }

  /** A base weapon with a submenu whose group maps to category `c`. */
  predicate InCategory(w: WeaponDef, allowed: Permission -> bool, e: Engine, c: Category)
  {
    HasBaseSubmenu(w, allowed) && CategoryOf(e.group(w.hash)) == Some(c)
  }

  /** An addon weapon gets a submenu iff the spawn permission holds, it has a
      name and the addon registry is not empty. */
  predicate HasAddonSubmenu(w: WeaponDef, allowed: Permission -> bool, registrySize: nat)
  {
    allowed(WPSpawn) && w.name != "" && registrySize > 0
  }

  /** The contents of category submenu `c`. */
  function CategoryMenus(ws: seq<WeaponDef>, allowed: Permission -> bool, e: Engine, c: Category): seq<WeaponMenu>
  {
    Submenus(ws, w => InCategory(w, allowed, e, c), w => BaseSubmenu(w, allowed))
  }

  /** The contents of the Addon Weapons submenu. */
  function AddonMenus(addons: seq<WeaponDef>, allowed: Permission -> bool, registrySize: nat): seq<WeaponMenu>
  {
    Submenus(addons, w => HasAddonSubmenu(w, allowed, registrySize), w => AddonSubmenu(w))
  }

  /** A listed weapon's submenu sits in category `c` iff it has a submenu and
      its group maps to `c`: so in exactly one category, or in none when its
      group is not in the table. */
  lemma CategoryPlacement(ws: seq<WeaponDef>, allowed: Permission -> bool, e: Engine, w: WeaponDef, c: Category)
    requires w in ws
    ensures (exists m :: m in CategoryMenus(ws, allowed, e, c) && m.weapon == w) <==> InCategory(w, allowed, e, c)
  {
    SubmenusExact(ws, w => InCategory(w, allowed, e, c), w => BaseSubmenu(w, allowed));
    if InCategory(w, allowed, e, c) {
      assert BaseSubmenu(w, allowed) in CategoryMenus(ws, allowed, e, c);
    }
  }

  /** A category submenu is empty iff no weapon of the list falls into it. */
  lemma CategoryEmptyIff(ws: seq<WeaponDef>, allowed: Permission -> bool, e: Engine, c: Category)
    ensures CategoryMenus(ws, allowed, e, c) == [] <==> forall w :: w in ws ==> !InCategory(w, allowed, e, c)
  {
    SubmenusEmptyIff(ws, w => InCategory(w, allowed, e, c), w => BaseSubmenu(w, allowed));
  }

  /** The addon submenu lists exactly the admitted addon weapons. */
  lemma AddonPlacement(addons: seq<WeaponDef>, allowed: Permission -> bool, registrySize: nat, w: WeaponDef)
    requires w in addons
    ensures (exists m :: m in AddonMenus(addons, allowed, registrySize) && m.weapon == w)
              <==> HasAddonSubmenu(w, allowed, registrySize)
  {
    SubmenusExact(addons, w => HasAddonSubmenu(w, allowed, registrySize), w => AddonSubmenu(w));
    if HasAddonSubmenu(w, allowed, registrySize) {
      assert AddonSubmenu(w) in AddonMenus(addons, allowed, registrySize);
    }
  }

  /** The addon submenu is empty iff the spawn permission is missing, the
      registry is empty, or no addon weapon has a name. */
  lemma AddonEmptyIff(addons: seq<WeaponDef>, allowed: Permission -> bool, registrySize: nat)
    ensures (AddonMenus(addons, allowed, registrySize) == [])
              <==> (!allowed(WPSpawn) || registrySize == 0 || forall w :: w in addons ==> w.name == "")
  {
    SubmenusEmptyIff(addons, w => HasAddonSubmenu(w, allowed, registrySize), w => AddonSubmenu(w));
  }

  /** All eight category submenus. */
  function CategoryMap(ws: seq<WeaponDef>, allowed: Permission -> bool, e: Engine): (cats: map<Category, seq<WeaponMenu>>)
    ensures forall c :: c in cats && cats[c] == CategoryMenus(ws, allowed, e, c)
  {
    EveryCategoryListed();
    map c | c in CategoryOrder :: CategoryMenus(ws, allowed, e, c)
  }

  /** The loop over the base weapon list: build each named, permitted
      weapon's submenu and append it to the submenu of its category. */
  method BuildCategoryMenus(ws: seq<WeaponDef>, allowed: Permission -> bool, e: Engine)
    returns (cats: map<Category, seq<WeaponMenu>>)
    ensures cats == CategoryMap(ws, allowed, e)
  {
    EveryCategoryListed();
    cats := map c | c in CategoryOrder :: [];
    assert ws[..0] == [];
    for i := 0 to |ws|
      invariant forall c :: c in cats && cats[c] == CategoryMenus(ws[..i], allowed, e, c)
    {
      var w := ws[i];
      assert ws[..i + 1][..i] == ws[..i];
      if w.name != "" && allowed(w.perm) {
        var weaponMenu := WeaponSubmenu(w, BaseTintList(w.name), allowed(WPSpawn));
        match CategoryOf(e.group(w.hash))
        case Some(c) =>
          cats := cats[c := cats[c] + [weaponMenu]];
        case None =>
      }
    }
    assert ws[..|ws|] == ws;
  }

  /** The loop over the addon weapon list. */
  method BuildAddonMenus(addons: seq<WeaponDef>, allowed: Permission -> bool, registrySize: nat)
    returns (menus: seq<WeaponMenu>)
    ensures menus == AddonMenus(addons, allowed, registrySize)
  {
    menus := [];
    for i := 0 to |addons|
      invariant menus == AddonMenus(addons[..i], allowed, registrySize)
    {
      var w := addons[i];
      assert addons[..i + 1][..i] == addons[..i];
      if allowed(WPSpawn) && w.name != "" && registrySize > 0 {
        menus := menus + [WeaponSubmenu(w, AddonTintList(w.name), true)];
      }
    }
    assert addons[..|addons|] == addons;
  }

  // ---------------------------------------------------------------------
  // The main menu

  datatype MainItem =
    | GetAllWeapons
    | RemoveAllWeapons
    | UnlimitedAmmoBox
    | NoReloadBox
    | SetAllAmmo
    | RefillAllAmmo
    | SpawnByName
    | AddonWeaponsButton
    | ParachuteButton
    | CategoryButton(category: Category)

  datatype MainEntry = MainEntry(item: MainItem, enabled: bool)

  /** The eight category buttons, each enabled iff its submenu is not empty. */
  function CategoryButtons(cats: map<Category, seq<WeaponMenu>>): seq<MainEntry>
    requires forall c :: c in cats
  {
    seq(8, i requires 0 <= i < 8 => MainEntry(CategoryButton(CategoryOrder[i]), cats[CategoryOrder[i]] != []))
  }

  /** The items added ahead of the buttons, in the order they are added. */
  const LeadingItems: seq<MainItem> :=
    [GetAllWeapons, RemoveAllWeapons, UnlimitedAmmoBox, NoReloadBox, SetAllAmmo, RefillAllAmmo, SpawnByName]

  /** The items of `items` whose gating permission holds, in order: each is
      added under its own permission test. */
  function GatedItems(items: seq<MainItem>, allowed: Permission -> bool): seq<MainEntry>
  {
    if items == [] then []
    else (if GatePermission(items[0]).Some? && allowed(GatePermission(items[0]).value)
          then [MainEntry(items[0], true)] else [])
         + GatedItems(items[1..], allowed)
  }

  /** An item is listed iff it is among `items` and its permission holds;
      nothing is listed locked. */
  lemma {:induction false} GatedItemsMembers(items: seq<MainItem>, allowed: Permission -> bool, x: MainItem, b: bool)
    ensures (MainEntry(x, b) in GatedItems(items, allowed))
              <==> (b && x in items && GatePermission(x).Some? && allowed(GatePermission(x).value))
  {
    if items != [] {
      GatedItemsMembers(items[1..], allowed, x, b);
      assert x in items <==> x == items[0] || x in items[1..];
    }
  }

  /** The main menu's leading items, each added only when its permission
      holds; Set All Ammo Count and Refill All Ammo share one permission. */
  function PermittedItems(allowed: Permission -> bool): seq<MainEntry>
  {
    GatedItems(LeadingItems, allowed)
  }

  /** The main menu's entries, in the order they are added: the permitted
      items, the Addon Weapons button (locked when its submenu is empty), the
      Parachute Options button when permitted, and the category buttons
      (each locked when its submenu is empty). */
  function MainEntries(allowed: Permission -> bool, addons: seq<WeaponMenu>, cats: map<Category, seq<WeaponMenu>>): seq<MainEntry>
    requires forall c :: c in cats
  {
    PermittedItems(allowed)
    + [MainEntry(AddonWeaponsButton, addons != [])]
    + GatedItems([ParachuteButton], allowed)
    + CategoryButtons(cats)
  }

  /** The permission each main-menu item is gated on, or None for the
      buttons that are always added; `GatedItems` filters by it. */
  function GatePermission(x: MainItem): Option<Permission>
  {
    match x
    case GetAllWeapons => Some(WPGetAll)
    case RemoveAllWeapons => Some(WPRemoveAll)
    case UnlimitedAmmoBox => Some(WPUnlimitedAmmo)
    case NoReloadBox => Some(WPNoReload)
    case SetAllAmmo => Some(WPSetAllAmmo)
    case RefillAllAmmo => Some(WPSetAllAmmo)
    case SpawnByName => Some(WPSpawnByName)
    case ParachuteButton => Some(WPParachute)
    case _ => None
  }

  /** A leading item is there iff it is gated on a permission that holds,
      and never locked. */
  lemma PermittedItemsGating(allowed: Permission -> bool, x: MainItem)
    ensures (MainEntry(x, true) in PermittedItems(allowed))
              <==> (x != ParachuteButton && GatePermission(x).Some? && allowed(GatePermission(x).value))
    ensures MainEntry(x, false) !in PermittedItems(allowed)
  {
    GatedItemsMembers(LeadingItems, allowed, x, true);
    GatedItemsMembers(LeadingItems, allowed, x, false);
  }

  /** In the whole main menu, each gated item is there iff its permission
      holds, and never locked. */
  lemma MainEntriesGating(allowed: Permission -> bool, addons: seq<WeaponMenu>, cats: map<Category, seq<WeaponMenu>>, x: MainItem)
    requires forall c :: c in cats
    requires GatePermission(x).Some?
    ensures (MainEntry(x, true) in MainEntries(allowed, addons, cats)) <==> allowed(GatePermission(x).value)
    ensures MainEntry(x, false) !in MainEntries(allowed, addons, cats)
  {
    PermittedItemsGating(allowed, x);
    GatedItemsMembers([ParachuteButton], allowed, x, true);
    GatedItemsMembers([ParachuteButton], allowed, x, false);
    assert MainEntry(x, true) !in CategoryButtons(cats);
    assert MainEntry(x, false) !in CategoryButtons(cats);
  }

  /** Each category's button appears once among the category buttons,
      enabled iff that category's submenu is not empty; no other item is
      among them. */
  lemma CategoryButtonsMembers(cats: map<Category, seq<WeaponMenu>>, c: Category, b: bool)
    requires forall c :: c in cats
    ensures (MainEntry(CategoryButton(c), b) in CategoryButtons(cats)) <==> (b == (cats[c] != []))
  {
    var buttons := CategoryButtons(cats);
    CategoriesCovered(c);
    var k :| 0 <= k < 8 && CategoryOrder[k] == c;
    assert buttons[k] == MainEntry(CategoryButton(c), cats[c] != []);
    if b != (cats[c] != []) {
      forall i | 0 <= i < 8
        ensures buttons[i] != MainEntry(CategoryButton(c), b)
      {
        assert buttons[i].item == CategoryButton(CategoryOrder[i]);
      }
    }
  }

  /** Disable if empty: a category's button is on the main menu, enabled iff
      its submenu has entries. */
  lemma MainEntriesCategoryButton(allowed: Permission -> bool, addons: seq<WeaponMenu>, cats: map<Category, seq<WeaponMenu>>, c: Category, b: bool)
    requires forall c :: c in cats
    ensures (MainEntry(CategoryButton(c), b) in MainEntries(allowed, addons, cats)) <==> (b == (cats[c] != []))
  {
    GatedItemsMembers(LeadingItems, allowed, CategoryButton(c), b);
    GatedItemsMembers([ParachuteButton], allowed, CategoryButton(c), b);
    CategoryButtonsMembers(cats, c, b);
  }

  /** Disable if empty: the Addon Weapons button is on the main menu,
      enabled iff the addon submenu has entries. */
  lemma MainEntriesAddonButton(allowed: Permission -> bool, addons: seq<WeaponMenu>, cats: map<Category, seq<WeaponMenu>>, b: bool)
    requires forall c :: c in cats
    ensures (MainEntry(AddonWeaponsButton, b) in MainEntries(allowed, addons, cats)) <==> (b == (addons != []))
  {
    GatedItemsMembers(LeadingItems, allowed, AddonWeaponsButton, b);
    GatedItemsMembers([ParachuteButton], allowed, AddonWeaponsButton, b);
    assert MainEntry(AddonWeaponsButton, b) !in CategoryButtons(cats);
  }

  // ---------------------------------------------------------------------
  // The whole tree

  /** The main entries and the submenus behind them. The parachute submenu
      exists only when it is permitted. */
  datatype WeaponsMenu = WeaponsMenu(
    main: seq<MainEntry>,
    addonWeapons: seq<WeaponMenu>,
    parachute: Option<seq<ParachuteItem>>,
    categories: map<Category, seq<WeaponMenu>>)

  function ParachuteMenu(allowed: Permission -> bool): Option<seq<ParachuteItem>>
  {
    if allowed(WPParachute) then Some(ParachuteEntries) else None
  }

  /** The menu built from the static tables under the given permissions. */
  function BuildMenu(data: WeaponData, allowed: Permission -> bool, e: Engine): WeaponsMenu
  {
    var addons := AddonMenus(data.addons, allowed, data.addonRegistrySize);
    var cats := CategoryMap(data.weapons, allowed, e);
    WeaponsMenu(MainEntries(allowed, addons, cats), addons, ParachuteMenu(allowed), cats)
  }

  /** The Parachute Options button is on the main menu iff its submenu
      exists, which is iff the parachute permission holds; the submenu
      then holds its seven items in order, and the button is never locked. */
  lemma ParachuteButtonIff(data: WeaponData, allowed: Permission -> bool, e: Engine)
    ensures (MainEntry(ParachuteButton, true) in BuildMenu(data, allowed, e).main)
              <==> BuildMenu(data, allowed, e).parachute.Some?
    ensures BuildMenu(data, allowed, e).parachute.Some? <==> allowed(WPParachute)
    ensures BuildMenu(data, allowed, e).parachute.Some? ==>
              BuildMenu(data, allowed, e).parachute.value == ParachuteEntries
    ensures MainEntry(ParachuteButton, false) !in BuildMenu(data, allowed, e).main
  {
    var addons := AddonMenus(data.addons, allowed, data.addonRegistrySize);
    var cats := CategoryMap(data.weapons, allowed, e);
    MainEntriesGating(allowed, addons, cats, ParachuteButton);
  }

  /** A category button is enabled iff some named, permitted base weapon's
      group maps to that category, and locked otherwise. */
  lemma CategoryButtonEnabledIff(data: WeaponData, allowed: Permission -> bool, e: Engine, c: Category)
    ensures (MainEntry(CategoryButton(c), true) in BuildMenu(data, allowed, e).main)
              <==> (exists w :: w in data.weapons && InCategory(w, allowed, e, c))
    ensures (MainEntry(CategoryButton(c), false) in BuildMenu(data, allowed, e).main)
              <==> (forall w :: w in data.weapons ==> !InCategory(w, allowed, e, c))
  {
    var addons := AddonMenus(data.addons, allowed, data.addonRegistrySize);
    var cats := CategoryMap(data.weapons, allowed, e);
    MainEntriesCategoryButton(allowed, addons, cats, c, true);
    MainEntriesCategoryButton(allowed, addons, cats, c, false);
    CategoryEmptyIff(data.weapons, allowed, e, c);
  }

  /** The Addon Weapons button is enabled iff the spawn permission holds, the
      registry is not empty and some addon weapon has a name. */
  lemma AddonButtonEnabledIff(data: WeaponData, allowed: Permission -> bool, e: Engine)
    ensures (MainEntry(AddonWeaponsButton, true) in BuildMenu(data, allowed, e).main)
              <==> (allowed(WPSpawn) && data.addonRegistrySize > 0 && exists w :: w in data.addons && w.name != "")
    ensures (MainEntry(AddonWeaponsButton, false) in BuildMenu(data, allowed, e).main)
              <==> !(allowed(WPSpawn) && data.addonRegistrySize > 0 && exists w :: w in data.addons && w.name != "")
  {
    var addons := AddonMenus(data.addons, allowed, data.addonRegistrySize);
    var cats := CategoryMap(data.weapons, allowed, e);
    MainEntriesAddonButton(allowed, addons, cats, true);
    MainEntriesAddonButton(allowed, addons, cats, false);
    AddonEmptyIff(data.addons, allowed, data.addonRegistrySize);
  }
}
