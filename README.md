# vMenu Weapon Options, modelled in Dafny

This project models the core of vMenu's **Weapon Options** menu
(`vMenu/menus/WeaponOptions.cs`). vMenu is a FiveM server menu. This menu lets
a player give and remove weapons, refill ammo, change tints and attachments,
and set up parachutes. The model covers:

- how the menu tree is built from the weapon tables under the server's
  permissions;
- which weapon lands in which category submenu;
- which tint list a weapon's submenu offers;
- which buttons are locked;
- what each handler does to the player's inventory and to the menu's flags.

The modules:

- `Types` (`types.dfy`): 32-bit engine ids, permissions, weapon definitions
  and the static tables. `Engine` holds the engine's answers as functions:
  weapon group, GetMaxAmmo (which can fail), clip sizes, GetHashKey and
  GetLabelText. `MaxAmmoOr` is how a GetMaxAmmo call is read: the source
  initialises a local (255, 900 or 0) and passes it by reference, so the
  local keeps that value when the native reports no maximum.
- `Categories` (`categories.dfy`): the weapon-group → category chain, and the
  table it is checked against.
- `Tints` (`tints.dfy`): ordinal substring search, the base-weapon tint chain
  with a first-match reference definition, and the addon-weapon rule.
- `Inventory` (`inventory.dfy`): the player's loadout (hash → clip, ammo,
  components, tint). It has the natives as reads and writes on the loadout,
  and the effect of every weapon handler as a function with its laws. It also
  has the Get All / Refill All folds.
- `MenuTree` (`menu_tree.dfy`): per-weapon submenus, sorting into the eight
  category sequences and the addon sequence, the loops that build them, the
  main menu's entries with their enabled flags, and the whole tree, with the
  parachute submenu present only under its permission.
- `Parachute` (`parachute.dfy`): the parachute submenu's items, the chute
  style descriptions, and the smoke-trail colour change as a two-step state
  machine.
- `WeaponOptionsMenu` (`weapon_options.dfy`): the `WeaponOptions` class and the
  `Player` class. `WeaponOptions` has the lazily built menu, the four session
  flags, the captured `switching` flag and the pending smoke index, the chute
  descriptions, and every handler as a method. `Player` is the state the
  natives change.

The base and addon submenus share one handler method. Each `WeaponMenu` keeps
its own `WeaponDef`, and each component entry keeps its component hash. This
replaces the source's `weaponInfo` / `weaponComponents` dictionaries, which map
a menu to its weapon and an item to its component. A weapon menu's two
`OnItemSelect` subscriptions are merged in subscription order: the general one
first, then the component one.

## Model

| member | source | states |
|---|---|---|
| Categories.CategoryOfMatchesTable | vMenu/menus/WeaponOptions.cs:713-760 | The if/else chain gives category c for a group id iff the pair is in the 13-entry group table |
| Categories.UnlistedGroupHasNoCategory | vMenu/menus/WeaponOptions.cs:713-760 | A group id gets no category iff it is not in the table |
| Categories.GroupTableIsFunctional | vMenu/menus/WeaponOptions.cs:713-760 | No group id is listed twice, so a weapon lands in one category at most |
| Categories.CategoriesCovered | vMenu/menus/WeaponOptions.cs:469-499 | Every category is reachable from some group id, and the button order lists each of the eight categories exactly once |
| Categories.EveryCategoryListed | vMenu/menus/WeaponOptions.cs:469-499 | Every category has a button |
| Tints.ContainsIff | vMenu/menus/WeaponOptions.cs:545 | The substring test is true iff the pattern occurs at some index of the name |
| Tints.FirstMatchPicksEarliest | vMenu/menus/WeaponOptions.cs:545-600 | The first-match reference returns the list of the earliest pattern the name contains |
| Tints.FirstMatchDefault | vMenu/menus/WeaponOptions.cs:594-600 | The first-match reference gives the default list iff no pattern matches |
| Tints.BaseTintListIsFirstMatch | vMenu/menus/WeaponOptions.cs:545-600 | The seven-test chain equals the first-match rule over the ordered pattern list |
| Tints.BaseTintListSpec | vMenu/menus/WeaponOptions.cs:545-600 | The base-weapon tint list is that of the earliest matching pattern, and the default list iff none matches |
| Tints.AddonTintListSpec | vMenu/menus/WeaponOptions.cs:132-145 | An addon weapon gets the Mk II list exactly when a base weapon of that name would, and the default list otherwise |
| Inventory.ToggledWeapon | vMenu/menus/WeaponOptions.cs:631-646 | Equip/Remove flips ownership. A weapon that is given arrives with GetMaxAmmo's value (255 if the native fails), and no other weapon changes |
| Inventory.ToggleWeaponTwice | vMenu/menus/WeaponOptions.cs:631-646 | Pressing Equip/Remove twice on an unowned weapon restores the inventory. On an owned weapon it leaves that weapon freshly given |
| Inventory.ParachuteToggled | vMenu/menus/WeaponOptions.cs:364-375 | Toggle Primary Parachute flips the parachute's ownership, gives it with 0 ammo, and changes nothing else |
| Inventory.ParachuteToggleTwice | vMenu/menus/WeaponOptions.cs:364-375 | Toggling the parachute twice restores a loadout without one |
| Inventory.Refilled | vMenu/menus/WeaponOptions.cs:647-659 | Re-fill Ammo sets an owned weapon's ammo to its maximum (900 if the native fails), keeps the set of owned weapons, and changes nothing else |
| Inventory.RefillIdempotent | vMenu/menus/WeaponOptions.cs:647-659 | Refilling twice is refilling once |
| Inventory.Tinted | vMenu/menus/WeaponOptions.cs:607-620 | A tint change sets only the owned weapon's tint index |
| Inventory.TintLastWins | vMenu/menus/WeaponOptions.cs:607-620 | Of two tint changes, the last one stays |
| Inventory.EquippedComponent | vMenu/menus/WeaponOptions.cs:700-709 | Equipping a component adds it and leaves clip, total ammo and tint as they were, even though the engine may reset the clip |
| Inventory.ComponentToggled | vMenu/menus/WeaponOptions.cs:672-695 | On an owned weapon, toggling flips that component's presence only, keeps clip, ammo and tint, and touches no other weapon. On an unowned weapon it does nothing |
| Inventory.ComponentToggleTwice | vMenu/menus/WeaponOptions.cs:672-695 | Toggling a component twice restores the inventory exactly |
| Inventory.PossessionGuard | vMenu/menus/WeaponOptions.cs:607-695 | On an unowned weapon, refill, tint change and component toggle leave the inventory unchanged, while Equip/Remove gives the weapon |
| Inventory.Armed | vMenu/menus/WeaponOptions.cs:825-834 | One Get All step owns the weapon with a full clip and GetMaxAmmo's value (0 if the native fails), keeps its components and tint, and changes no other weapon |
| Inventory.PermittedMembers | vMenu/menus/WeaponOptions.cs:823-826 | Get All's base list holds exactly the listed weapons whose permission holds |
| Inventory.ArmedAllKeys | vMenu/menus/WeaponOptions.cs:823-845 | Arming a list owns exactly what was owned plus the list's weapons |
| Inventory.ArmedAllFull | vMenu/menus/WeaponOptions.cs:823-845 | Every weapon of the list ends with a full clip and maximum ammo |
| Inventory.ArmedAllUntouched | vMenu/menus/WeaponOptions.cs:823-845 | A weapon outside the list is left as it was |
| Inventory.ArmedAllKeepsFittings | vMenu/menus/WeaponOptions.cs:823-845 | Components and tints of weapons already owned survive |
| Inventory.ArmedAllSpec | vMenu/menus/WeaponOptions.cs:823-845 | The four facts above, for every weapon |
| Inventory.GetAllSpec | vMenu/menus/WeaponOptions.cs:821-847 | Get All gives every permitted base weapon and every addon weapon (addons have no permission check) with full clip and max ammo, adds nothing else, and leaves other weapons untouched |
| Inventory.Reloaded | vMenu/menus/WeaponOptions.cs:860-867 | One Refill All step fills an owned weapon's clip and ammo, skips an unowned one, and changes no other weapon |
| Inventory.ReloadedAllSpec | vMenu/menus/WeaponOptions.cs:858-879 | Reloading a list gives no weapon, fills the owned weapons it names, and leaves the rest |
| Inventory.RefillAllSpec | vMenu/menus/WeaponOptions.cs:856-880 | Refill All touches only weapons already owned, fills every owned weapon named in either list, and leaves the rest alone |
| MenuTree.BaseSubmenuLayout | vMenu/menus/WeaponOptions.cs:525-603 | A base weapon's submenu starts with Equip/Remove, locked iff WPSpawn is missing, then Re-fill Ammo, then the Tints list the first matching name pattern selects, at index 0 |
| MenuTree.AddonSubmenuLayout | vMenu/menus/WeaponOptions.cs:118-147 | An addon weapon's Equip/Remove is never locked, and its Tints list is the Mk II list exactly when a base weapon of that name would get it, and the default list otherwise |
| MenuTree.ComponentTogglesMatch | vMenu/menus/WeaponOptions.cs:663-669 | A weapon submenu offers an enabled toggle for each of the weapon's components, and every toggle it offers is for one of them |
| MenuTree.SubmenusExact | vMenu/menus/WeaponOptions.cs:503-506 | A build loop lists a submenu iff some admitted weapon of the list builds it |
| MenuTree.SubmenusEmptyIff | vMenu/menus/WeaponOptions.cs:503-506 | A build loop lists nothing iff it admits no weapon |
| MenuTree.CategoryPlacement | vMenu/menus/WeaponOptions.cs:503-760 | A listed weapon has a submenu in category c iff its name is non-empty, its permission holds and its group maps to c. So it is in exactly one category, or in none |
| MenuTree.CategoryEmptyIff | vMenu/menus/WeaponOptions.cs:503-760 | A category submenu is empty iff no weapon of the list falls into it |
| MenuTree.AddonPlacement | vMenu/menus/WeaponOptions.cs:97-99 | An addon weapon has a submenu iff WPSpawn holds, its name is non-empty and the addon registry is not empty |
| MenuTree.AddonEmptyIff | vMenu/menus/WeaponOptions.cs:97-99 | The addon submenu is empty iff WPSpawn is missing, the registry is empty, or no addon weapon has a name |
| MenuTree.CategoryMap | vMenu/menus/WeaponOptions.cs:434-451 | All eight category submenus exist, each holding its category's sequence |
| MenuTree.BuildCategoryMenus | vMenu/menus/WeaponOptions.cs:503-762 | The base-weapon loop appends each admitted weapon's submenu to its category's sequence and yields exactly the eight category sequences |
| MenuTree.BuildAddonMenus | vMenu/menus/WeaponOptions.cs:97-262 | The addon loop yields exactly the addon sequence |
| MenuTree.GatedItemsMembers | vMenu/menus/WeaponOptions.cs:57-81 | An item is added iff it is among the gated items and its permission holds, and it is never locked |
| MenuTree.PermittedItemsGating | vMenu/menus/WeaponOptions.cs:57-81 | Each leading item is on the menu iff its permission holds. WPSetAllAmmo adds both Set All Ammo Count and Refill All Ammo |
| MenuTree.MainEntriesGating | vMenu/menus/WeaponOptions.cs:57-81 | In the full main menu, each gated item (the Parachute Options button included) is there iff its permission holds, and never locked |
| MenuTree.CategoryButtonsMembers | vMenu/menus/WeaponOptions.cs:767-814 | Each category button is there, enabled iff its submenu is not empty |
| MenuTree.MainEntriesCategoryButton | vMenu/menus/WeaponOptions.cs:767-814 | On the main menu, a category's button is enabled iff its submenu has entries |
| MenuTree.MainEntriesAddonButton | vMenu/menus/WeaponOptions.cs:266-271 | On the main menu, the Addon Weapons button is enabled iff the addon submenu has entries |
| MenuTree.CategoryButtonEnabledIff | vMenu/menus/WeaponOptions.cs:767-814 | In the built tree, a category button is enabled iff some named, permitted weapon's group maps to it, and locked iff none does |
| MenuTree.AddonButtonEnabledIff | vMenu/menus/WeaponOptions.cs:266-271 | In the built tree, the Addon Weapons button is enabled iff WPSpawn holds, the registry is not empty and some addon weapon has a name |
| MenuTree.ParachuteButtonIff | vMenu/menus/WeaponOptions.cs:276-360 | The Parachute Options button is on the main menu iff its submenu exists, which is iff WPParachute holds. The submenu then holds its seven items in the order they are added, and the button is never locked |
| Parachute.ListDescriptionsDistinct | vMenu/menus/WeaponOptions.cs:413-422 | The primary and reserve style lists never show the same description. Within one list, two styles show the same description iff their own descriptions agree |
| Parachute.BrokenStylesMarked | vMenu/menus/WeaponOptions.cs:305-323 | Styles 8 to 13, and only those, carry the "does not work" note after their label |
| Parachute.SmokeStepValid | vMenu/menus/WeaponOptions.cs:398-412 | A step keeps the remembered index inside the colour list |
| Parachute.SmokeRun | vMenu/menus/WeaponOptions.cs:398-412 | Running events keeps the remembered index inside the colour list |
| Parachute.SmokeRequestStarts | vMenu/menus/WeaponOptions.cs:398-406 | A change starts iff none is running and the event is a select (old index -1). It turns the trail off and keeps the colour. A scroll does nothing |
| Parachute.BusyIgnoresRequests | vMenu/menus/WeaponOptions.cs:400-402 | While a change is running, any sequence of list events leaves the smoke state unchanged |
| Parachute.SmokeColorsDistinct | vMenu/menus/WeaponOptions.cs:342-350 | The six colours are pairwise distinct |
| Parachute.SmokeChangeCompletes | vMenu/menus/WeaponOptions.cs:398-411 | Select then wait applies the chosen colour, allows the trail iff the choice is not "no smoke", and ends the change |
| WeaponOptionsMenu.WeaponOptions.constructor | vMenu/menus/WeaponOptions.cs:18-23 | The four flags start from the user defaults, with no menu and no smoke change running |
| WeaponOptionsMenu.WeaponOptions.CreateMenu | vMenu/menus/WeaponOptions.cs:36-426 | The built tree equals BuildMenu. With WPParachute, the chute descriptions show style 0 and no smoke change runs |
| WeaponOptionsMenu.WeaponOptions.GetMenu | vMenu/menus/WeaponOptions.cs:945-952 | The first call builds the menu and, with WPParachute, shows style 0 in both chute descriptions with no smoke change running. Later calls return the same tree and change nothing |
| WeaponOptionsMenu.WeaponOptions.EquipWeaponComponent | vMenu/menus/WeaponOptions.cs:700-709 | The step-by-step native sequence yields EquippedComponent |
| WeaponOptionsMenu.WeaponOptions.OnWeaponItemSelect | vMenu/menus/WeaponOptions.cs:624-698 | A press on an enabled entry of the weapon's submenu, other than the Tints list (a list select, which weapon submenus do not handle), makes the weapon current. Then Equip/Remove, Re-fill Ammo and a component toggle each have their effect, with the matching feedback or "need the weapon first" |
| WeaponOptionsMenu.WeaponOptions.OnWeaponListChange | vMenu/menus/WeaponOptions.cs:607-621 | A tint change on an owned weapon sets its tint. On an unowned weapon it only reports the error |
| WeaponOptionsMenu.WeaponOptions.ArmPermitted | vMenu/menus/WeaponOptions.cs:823-835 | The base-weapon loop of Get All yields ArmedAll over the permitted weapons |
| WeaponOptionsMenu.WeaponOptions.ArmEvery | vMenu/menus/WeaponOptions.cs:836-845 | The addon loop of Get All yields ArmedAll over every addon weapon |
| WeaponOptionsMenu.WeaponOptions.GiveAllWeapons | vMenu/menus/WeaponOptions.cs:821-847 | Get All yields GetAllResult and leaves weapon_unarmed current |
| WeaponOptionsMenu.WeaponOptions.ReloadOwned | vMenu/menus/WeaponOptions.cs:858-868 | One Refill All loop yields ReloadedAll |
| WeaponOptionsMenu.WeaponOptions.RefillAll | vMenu/menus/WeaponOptions.cs:856-880 | Refill All yields RefillAllResult |
| WeaponOptionsMenu.WeaponOptions.OnMainItemSelect | vMenu/menus/WeaponOptions.cs:818-885 | Get All, Remove All (empty loadout) and Refill All have their effect. Every other item leaves the inventory and the current weapon alone |
| WeaponOptionsMenu.WeaponOptions.OnMainCheckboxChange | vMenu/menus/WeaponOptions.cs:889-901 | Each checkbox writes only its own flag and announces the new value |
| WeaponOptionsMenu.WeaponOptions.OnParachuteItemSelect | vMenu/menus/WeaponOptions.cs:362-382 | Toggle Primary flips the parachute. Enable Reserve grants the reserve, which is never taken back. Other items change nothing |
| WeaponOptionsMenu.WeaponOptions.OnParachuteCheckboxChange | vMenu/menus/WeaponOptions.cs:385-395 | Each parachute checkbox writes only its own flag |
| WeaponOptionsMenu.WeaponOptions.OnParachuteListChange | vMenu/menus/WeaponOptions.cs:398-423 | The smoke list follows SmokeRequested. A style list sets its tint and description. Nothing else changes |
| WeaponOptionsMenu.WeaponOptions.OnParachuteListSelect | vMenu/menus/WeaponOptions.cs:425 | A list select is the list handler with old index -1. A style list's description and tint change only for a select on that list, and the smoke state only for a select on the smoke list |
| WeaponOptionsMenu.WeaponOptions.CompleteSmokeColorChange | vMenu/menus/WeaponOptions.cs:407-410 | After the wait, the state follows SmokeApplied: the colour is applied, the trail is allowed iff the index is not 0, and the change ends |

## Left out

- Menu rendering and the MenuAPI framework: titles, item texts, icons, labels, the `→→→` markers, binding, `RefreshIndex`. A menu is a sequence of entries with an enabled flag.
- The spacer item between the parachute button and the category buttons, which comes from `GetSpacerMenuItem` in CommonFunctions. CommonFunctions is not part of this model.
- The weapon stats panel (`GetWeaponHudStats`, the `/ 100f` values, `OnIndexChange`/`OnMenuOpen` at 904-935). This is floating-point display state.
- Set All Ammo Count and Spawn Weapon By Name: they call `SetAllWeaponsAmmo` and `SpawnCustomWeapon` in CommonFunctions, so the model changes nothing for them.
- The four-second `await Delay` is not timed. Its continuation, the three native calls after the wait, runs as the single step `CompleteSmokeColorChange`. List events that arrive during the wait are modelled, and `BusyIgnoresRequests` covers them.
- Engine natives are reads and writes on the loadout map. Giving an owned weapon only sets its ammo. A new weapon starts with the engine's loaded clip, no components and tint 0. `RemoveAll` empties the loadout and does not change the current weapon. These are assumptions about a closed engine.
- Inventory.ComponentToggled: assumes `GiveWeaponComponentToPed` adds the component and leaves every other fitted component in place. The source (681-689, 700-709) saves and restores only clip and total ammo. A component that displaces another in the same slot, such as an extended clip over the default clip, is up to the engine and is not modelled.
- Inventory.ComponentToggled: also assumes `RemoveWeaponComponentFromPed` leaves the clip and total ammo alone. The source (683) saves and restores nothing on the removal path, so the ammo an extended magazine held when it is removed is up to the engine.
- Inventory.ComponentToggleTwice: holds under both assumptions. If the engine drops a displaced component, or cuts the clip when a magazine is removed, toggling twice does not restore the loadout.
- Static data tables (weapon list, addon list, tint dictionaries, component dictionaries) are parameters. A tint list is named by which table it comes from, not by its contents.
- Subtitle and notification texts become `Notice` values. The localised text behind labels is a parameter function.
- Submenus of weapons whose group is in no category are built but reachable from no button. The model drops them, because nothing in the tree refers to them.
- `Player.current` records the last weapon made current. The engine's own weapon switching is not modelled.
