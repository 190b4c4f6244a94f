/** Which tint list a weapon's "Tints" selector offers, chosen by substring
    tests on the weapon's display name. */
module Tints {

  /** The tint tables the selector can draw its entries from. */
  datatype TintList = MkII | RiotShotgun | RubberGun | ColBaton | Pocketlight | ServicePistol | SingleshotLL | Default

  /** `sub` occurs in `s` starting at index `i`. */
  predicate OccursAt(s: string, sub: string, i: nat)
  {
    i + |sub| <= |s| && s[i..i + |sub|] == sub
  }

  /** Ordinal substring search, as the runtime's string containment test:
      the empty string is contained in every string. */
  function Contains(s: string, sub: string): bool
    decreases |s|
  {
    if sub <= s then true
    else if |s| <= |sub| then false
    else Contains(s[1..], sub)
  }

  /** The recursive search finds exactly the substrings that occur somewhere. */
  lemma {:induction false} ContainsIff(s: string, sub: string)
    ensures Contains(s, sub) <==> exists i: nat :: OccursAt(s, sub, i)
    decreases |s|
  {
    if sub <= s {
      assert s[0..|sub|] == sub;
      assert OccursAt(s, sub, 0);
    } else if |s| <= |sub| {
      forall i: nat
        ensures !OccursAt(s, sub, i)
      {
        if i + |sub| <= |s| {
          assert i == 0 && s[i..i + |sub|] == s;
        }
      }
    } else {
      ContainsIff(s[1..], sub);
      if Contains(s, sub) {
        var j: nat :| OccursAt(s[1..], sub, j);
        assert s[j + 1..j + 1 + |sub|] == s[1..][j..j + |sub|];
        assert OccursAt(s, sub, j + 1);
      } else {
        forall i: nat
          ensures !OccursAt(s, sub, i)
        {
          if 0 < i && i + |sub| <= |s| {
            assert s[1..][i - 1..i - 1 + |sub|] == s[i..i + |sub|];
            assert !OccursAt(s[1..], sub, i - 1);
          }
        }
      }
    }
  }

  /** The ordered substring tests for base weapons, each with the list it selects. */
  const TintPatterns: seq<(string, TintList)> := [
    (" Mk II", MkII),
    ("Riot Shotgun", RiotShotgun),
    ("Rubber Gun", RubberGun),
    ("Telescopic ", ColBaton),
    ("Pocket ", Pocketlight),
    ("Service Pistol ", ServicePistol),
    (" Launcher (Less-Lethal)", SingleshotLL)
  ]

  /** Reference definition: the list of the first pattern the name contains,
      the default list when it contains none. */
  function FirstMatch(name: string, patterns: seq<(string, TintList)>): TintList
  {
    if patterns == [] then Default
    else if Contains(name, patterns[0].0) then patterns[0].1
    else FirstMatch(name, patterns[1..])
  }

  /** The if/else chain the base-weapon submenus use. */
  function BaseTintList(name: string): TintList
  {
    if Contains(name, " Mk II") then MkII
    else if Contains(name, "Riot Shotgun") then RiotShotgun
    else if Contains(name, "Rubber Gun") then RubberGun
    else if Contains(name, "Telescopic ") then ColBaton
    else if Contains(name, "Pocket ") then Pocketlight
    else if Contains(name, "Service Pistol ") then ServicePistol
    else if Contains(name, " Launcher (Less-Lethal)") then SingleshotLL
    else Default
  }

  /** The two-way test the addon-weapon submenus use. */
  function AddonTintList(name: string): TintList
  {
    if Contains(name, " Mk II") then MkII else Default
  }

  /** FirstMatch returns the list of the earliest matching pattern. */
  lemma {:induction false} FirstMatchPicksEarliest(name: string, patterns: seq<(string, TintList)>, k: nat)
    requires k < |patterns| && Contains(name, patterns[k].0)
    requires forall j :: 0 <= j < k ==> !Contains(name, patterns[j].0)
    ensures FirstMatch(name, patterns) == patterns[k].1
  {
    if k > 0 {
      assert !Contains(name, patterns[0].0);
      FirstMatchPicksEarliest(name, patterns[1..], k - 1);
    }
  }

  /** FirstMatch falls back to the default list exactly when no pattern
      matches, provided no pattern itself selects the default list. */
  lemma {:induction false} FirstMatchDefault(name: string, patterns: seq<(string, TintList)>)
    requires forall j :: 0 <= j < |patterns| ==> patterns[j].1 != Default
    ensures FirstMatch(name, patterns) == Default <==> forall j :: 0 <= j < |patterns| ==> !Contains(name, patterns[j].0)
  {
    if patterns != [] && !Contains(name, patterns[0].0) {
      FirstMatchDefault(name, patterns[1..]);
      assert forall j :: 1 <= j < |patterns| ==> patterns[j] == patterns[1..][j - 1];
    }
  }

  /** One unfolding of FirstMatch on a suffix of the pattern list. */
  lemma FirstMatchStep(name: string, patterns: seq<(string, TintList)>)
    requires patterns != []
    ensures FirstMatch(name, patterns) ==
      if Contains(name, patterns[0].0) then patterns[0].1 else FirstMatch(name, patterns[1..])
  {
  }

  /** The chain is the first-match rule over the ordered pattern list. */
  lemma BaseTintListIsFirstMatch(name: string)
    ensures BaseTintList(name) == FirstMatch(name, TintPatterns)
  {
    var p := TintPatterns;
    FirstMatchStep(name, p);
    FirstMatchStep(name, p[1..]);
    FirstMatchStep(name, p[2..]);
    FirstMatchStep(name, p[3..]);
    FirstMatchStep(name, p[4..]);
    FirstMatchStep(name, p[5..]);
    FirstMatchStep(name, p[6..]);
    assert p[7..] == [];
  }

  /** First match wins: the selected list is that of the earliest pattern the
      name contains, and the default list iff it contains none. */
  lemma BaseTintListSpec(name: string)
    ensures forall k :: 0 <= k < |TintPatterns| && Contains(name, TintPatterns[k].0)
              && (forall j :: 0 <= j < k ==> !Contains(name, TintPatterns[j].0))
              ==> BaseTintList(name) == TintPatterns[k].1
    ensures BaseTintList(name) == Default <==> forall k :: 0 <= k < |TintPatterns| ==> !Contains(name, TintPatterns[k].0)
  {
    BaseTintListIsFirstMatch(name);
    FirstMatchDefault(name, TintPatterns);
    forall k | 0 <= k < |TintPatterns| && Contains(name, TintPatterns[k].0)
        && (forall j :: 0 <= j < k ==> !Contains(name, TintPatterns[j].0))
      ensures BaseTintList(name) == TintPatterns[k].1
    {
      FirstMatchPicksEarliest(name, TintPatterns, k);
    }
  }

  /** Addon weapons only tell " Mk II" apart: they get the Mk II list exactly
      when a base weapon of that name would, and the default list otherwise. */
  lemma AddonTintListSpec(name: string)
    ensures AddonTintList(name) == MkII <==> BaseTintList(name) == MkII
    ensures AddonTintList(name) != MkII ==> AddonTintList(name) == Default
  {
  }
}
