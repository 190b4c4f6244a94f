/** Vocabulary shared by the Weapon Options model: engine identifiers,
    permissions, weapon definitions and the abstract engine. */
module Types {

  /** The engine's unsigned 32-bit identifiers: weapon hashes, component
      hashes and weapon-group ids. */
  newtype uint32 = x: int | 0 <= x < 0x1_0000_0000

  datatype Option<T> = None | Some(value: T)

  /** Permission tags answered by the permission manager. `WeaponPerm`
      stands for the per-weapon tag each weapon definition carries. */
  datatype Permission =
    | WPGetAll
    | WPRemoveAll
    | WPUnlimitedAmmo
    | WPNoReload
    | WPSetAllAmmo
    | WPSpawnByName
    | WPSpawn
    | WPParachute
    | WeaponPerm(id: nat)

  /** One entry of a weapon's component dictionary: its display name and hash. */
  datatype Component = Component(name: string, hash: uint32)

  /** A base or addon weapon definition from the static weapon tables.
      Addon definitions carry a `perm` that nothing reads. */
  datatype WeaponDef = WeaponDef(
    name: string,
    hash: uint32,
    perm: Permission,
    components: seq<Component>,
    defaultMaxAmmo: nat)

  /** The static tables the menu is built from: the base weapon list, the
      addon weapon list and the size of the addon-weapon registry. */
  datatype WeaponData = WeaponData(
    weapons: seq<WeaponDef>,
    addons: seq<WeaponDef>,
    addonRegistrySize: nat)

  /** What the game engine answers, as functions the model is given.
      - group: GetWeapontypeGroup, already cast to an unsigned id
      - maxAmmo: GetMaxAmmo; None when the native fails and leaves its
        out-parameter untouched
      - maxClip: GetMaxAmmoInClip
      - loadedClip: the clip a weapon holds right after it is given with
        the given amount of ammo
      - clipAfterComponent: the clip the engine leaves after
        GiveWeaponComponentToPed (attaching a magazine can reset it)
      - hashKey: GetHashKey
      - labelText: GetLabelText, the game's localised text for a label key */
  datatype Engine = Engine(
    group: uint32 -> uint32,
    maxAmmo: uint32 -> Option<nat>,
    maxClip: uint32 -> nat,
    loadedClip: (uint32, nat) -> nat,
    clipAfterComponent: (uint32, uint32) -> nat,
    hashKey: string -> uint32,
    labelText: string -> string)

  /** The value of a local initialised to `fallback` and then passed by
      reference to GetMaxAmmo. */
  function MaxAmmoOr(e: Engine, h: uint32, fallback: nat): nat
  {
    match e.maxAmmo(h)
    case Some(m) => m
    case None => fallback
  }
}
