/** The Parachute Options submenu: its items, the smoke-trail colour change
    (a request that disables the trail, then, four seconds later, the new
    colour), and the chute style lists. */
module Parachute {

  /** The items of the Parachute Options submenu. */
  datatype ParachuteItem =
    | TogglePrimary
    | EnableReserve
    | AutoEquipBox
    | UnlimitedParachutesBox
    | SmokeColorList
    | PrimaryChuteList
    | ReserveChuteList

  /** The submenu's items in the order they are added. */
  const ParachuteEntries: seq<ParachuteItem> :=
    [TogglePrimary, EnableReserve, AutoEquipBox, UnlimitedParachutesBox,
     SmokeColorList, PrimaryChuteList, ReserveChuteList]

  /** A smoke-trail colour as the three components the native takes. */
  datatype Rgb = Rgb(red: nat, green: nat, blue: nat)

  /** The colour behind each entry of the Smoke Trail Color list. Entry 0 is
      "no smoke"; then red, orange, yellow, blue and black. */
  const SmokeColors: seq<Rgb> := [
    Rgb(255, 255, 255),
    Rgb(255, 0, 0),
    Rgb(255, 165, 0),
    Rgb(255, 255, 0),
    Rgb(0, 0, 255),
    Rgb(20, 20, 20)
  ]

  /** The primary and reserve style lists offer eight working styles and six
      that are listed but marked as not working. */
  const ChuteStyleCount: nat := 14

  /** The text label keys behind the style descriptions. */
  const ChuteDescriptionKeys: seq<string> := [
    "PD_TINT0", "PD_TINT1", "PD_TINT2", "PD_TINT3",
    "PD_TINT4", "PD_TINT5", "PD_TINT6", "PD_TINT7",
    "PSD_CAN_0", "PSD_CAN_1", "PSD_CAN_2", "PSD_CAN_3", "PSD_CAN_4", "PSD_CAN_5"
  ]

  /** The warning appended to the descriptions of the styles that do not work. */
  const BrokenStyleNote: string := " ~r~For some reason this one doesn't seem to work in FiveM."

  /** The description of style `i`, given the game's text-label lookup. */
  function ChuteDescription(labelText: string -> string, i: nat): string
    requires i < ChuteStyleCount
  {
    if i < 8 then labelText(ChuteDescriptionKeys[i])
    else labelText(ChuteDescriptionKeys[i]) + BrokenStyleNote
  }

  /** The description a style list shows once style `i` is chosen. */
  function ChuteListDescription(reserve: bool, labelText: string -> string, i: nat): string
    requires i < ChuteStyleCount
  {
    (if reserve then "Reserve chute: " else "Primary chute: ") + ChuteDescription(labelText, i)
  }

  /** The two style lists can never show the same description, and within
      one list two styles show the same description iff the styles'
      own descriptions agree: the prefix names the list and nothing else. */
  lemma ListDescriptionsDistinct(labelText: string -> string, i: nat, j: nat)
    requires i < ChuteStyleCount && j < ChuteStyleCount
    ensures ChuteListDescription(false, labelText, i) != ChuteListDescription(true, labelText, j)
    ensures forall reserve: bool ::
              (ChuteListDescription(reserve, labelText, i) == ChuteListDescription(reserve, labelText, j))
                <==> (ChuteDescription(labelText, i) == ChuteDescription(labelText, j))
  {
    assert ChuteListDescription(false, labelText, i)[0] == 'P';
    assert ChuteListDescription(true, labelText, j)[0] == 'R';
    forall reserve: bool
      ensures (ChuteListDescription(reserve, labelText, i) == ChuteListDescription(reserve, labelText, j))
                ==> (ChuteDescription(labelText, i) == ChuteDescription(labelText, j))
    {
      var prefix := if reserve then "Reserve chute: " else "Primary chute: ";
      assert ChuteListDescription(reserve, labelText, i)[|prefix|..] == ChuteDescription(labelText, i);
      assert ChuteListDescription(reserve, labelText, j)[|prefix|..] == ChuteDescription(labelText, j);
    }
  }

  /** Exactly the styles from index 8 on carry the warning: the description
      is the label alone, or the label and the warning. */
  lemma BrokenStylesMarked(labelText: string -> string, i: nat)
    requires i < ChuteStyleCount
    ensures i < 8 <==> ChuteDescription(labelText, i) == labelText(ChuteDescriptionKeys[i])
    ensures i >= 8 <==> ChuteDescription(labelText, i) == labelText(ChuteDescriptionKeys[i]) + BrokenStyleNote
  {
    if i >= 8 {
      assert |ChuteDescription(labelText, i)| > |labelText(ChuteDescriptionKeys[i])|;
    }
  }

  // ---------------------------------------------------------------------
  // The smoke-trail colour change

  /** The state the smoke handler reads and writes: whether a change is in
      progress, the list index it will apply, and the player's trail
      settings. */
  datatype Smoke = Smoke(switching: bool, pending: nat, canLeave: bool, color: Rgb)

  /** What the smoke handler sees: a list event on the smoke list (a select
      arrives with old index -1) or the end of the four-second wait. */
  datatype SmokeEvent = SmokeListEvent(oldIndex: int, newIndex: nat) | DelayElapsed

  predicate SmokeValid(s: Smoke)
  {
    s.pending < |SmokeColors|
  }

  predicate EventValid(ev: SmokeEvent)
  {
    ev.SmokeListEvent? ==> ev.newIndex < |SmokeColors|
  }

  /** The handler up to the wait: a select while no change is running starts
      one, remembering the index and switching the trail off; anything else
      is ignored. */
  function SmokeRequested(s: Smoke, oldIndex: int, newIndex: nat): Smoke
  {
    if oldIndex == -1 && !s.switching
    then s.(switching := true, pending := newIndex, canLeave := false)
    else s
  }

  /** The handler after the wait: apply the remembered colour, allow the
      trail unless "no smoke" was chosen, and end the change. */
  function SmokeApplied(s: Smoke): Smoke
    requires SmokeValid(s)
  {
    if s.switching
    then s.(color := SmokeColors[s.pending], canLeave := s.pending != 0, switching := false)
    else s
  }

  function SmokeStep(s: Smoke, ev: SmokeEvent): Smoke
    requires SmokeValid(s) && EventValid(ev)
  {
    match ev
    case SmokeListEvent(oldIndex, newIndex) => SmokeRequested(s, oldIndex, newIndex)
    case DelayElapsed => SmokeApplied(s)
  }

  lemma SmokeStepValid(s: Smoke, ev: SmokeEvent)
    requires SmokeValid(s) && EventValid(ev)
    ensures SmokeValid(SmokeStep(s, ev))
  {
  }

  /** The state after a sequence of events, in order. */
  function SmokeRun(s: Smoke, evs: seq<SmokeEvent>): (r: Smoke)
    requires SmokeValid(s)
    requires forall i :: 0 <= i < |evs| ==> EventValid(evs[i])
    ensures SmokeValid(r)
    decreases |evs|
  {
    if evs == [] then s
    else
      SmokeStepValid(s, evs[0]);
      SmokeRun(SmokeStep(s, evs[0]), evs[1..])
  }

  /** A change starts iff none is running and the event is a select; a
      started change turns the trail off and leaves the colour alone. */
  lemma SmokeRequestStarts(s: Smoke, oldIndex: int, newIndex: nat)
    ensures (!s.switching && SmokeRequested(s, oldIndex, newIndex).switching)
              <==> (!s.switching && oldIndex == -1)
    ensures !s.switching && oldIndex == -1 ==>
              SmokeRequested(s, oldIndex, newIndex) == Smoke(true, newIndex, false, s.color)
    ensures oldIndex != -1 ==> SmokeRequested(s, oldIndex, newIndex) == s
  {
  }

  /** While a change is running, no list event has any effect: a second
      request is discarded, not queued. */
  lemma {:induction false} BusyIgnoresRequests(s: Smoke, evs: seq<SmokeEvent>)
    requires SmokeValid(s) && s.switching
    requires forall i :: 0 <= i < |evs| ==> EventValid(evs[i]) && evs[i].SmokeListEvent?
    ensures SmokeRun(s, evs) == s
    decreases |evs|
  {
    if evs != [] {
      assert SmokeStep(s, evs[0]) == s;
      BusyIgnoresRequests(s, evs[1..]);
    }
  }

  /** The six colours differ, so "no smoke" is told apart by its colour. */
  lemma SmokeColorsDistinct()
    ensures forall i, j :: 0 <= i < j < |SmokeColors| ==> SmokeColors[i] != SmokeColors[j]
  {
  }

  /** A select followed by the wait, from a quiet state, ends quiet with the
      chosen colour applied and the trail allowed iff that colour is not
      "no smoke"; a later request may start again. */
  lemma SmokeChangeCompletes(s: Smoke, i: nat)
    requires SmokeValid(s) && !s.switching && i < |SmokeColors|
    ensures SmokeRun(s, [SmokeListEvent(-1, i), DelayElapsed]) == Smoke(false, i, i != 0, SmokeColors[i])
    ensures (SmokeRun(s, [SmokeListEvent(-1, i), DelayElapsed]).canLeave)
              <==> (SmokeRun(s, [SmokeListEvent(-1, i), DelayElapsed]).color != SmokeColors[0])
  {
    var evs := [SmokeListEvent(-1, i), DelayElapsed];
    var mid := SmokeStep(s, evs[0]);
    assert mid == Smoke(true, i, false, s.color);
    var rest: seq<SmokeEvent> := [DelayElapsed];
    assert evs[1..] == rest;
    assert rest[1..] == [];
    assert SmokeRun(mid, rest) == SmokeRun(SmokeStep(mid, DelayElapsed), []);
    assert SmokeRun(s, evs) == SmokeRun(mid, rest);
    SmokeColorsDistinct();
  }
}
