/** Classification of base weapons into the eight category submenus by the
    engine's weapon-group id. */
module Categories {
  import opened Types

  datatype Category = Handguns | Rifles | Shotguns | SmgsLmgs | Throwables | Melee | Heavy | Snipers

  /** The category buttons in the order they are added to the main menu. */
  const CategoryOrder: seq<Category> :=
    [Handguns, Rifles, Shotguns, SmgsLmgs, Throwables, Melee, Heavy, Snipers]

  /** Every group id the menu recognises, paired with its category: an
      independent, tabular statement of the classification. */
  const GroupTable: seq<(uint32, Category)> := [
    (970310034, Rifles),
    (416676503, Handguns),   // pistols
    (690389602, Handguns),   // stun gun
    (860033945, Shotguns),
    (3337201093, SmgsLmgs),  // sub machine guns
    (1159398588, SmgsLmgs),  // light machine guns
    (1548507267, Throwables),
    (4257178988, Throwables), // fire extinguisher
    (1595662460, Throwables), // jerry can
    (3566412244, Melee),
    (2685387236, Melee),      // knuckle duster
    (2725924767, Heavy),
    (3082541095, Snipers)
  ]

  /** The first-match chain that decides which category submenu a weapon's
      button goes to; None means the button is attached nowhere. */
  function CategoryOf(group: uint32): Option<Category>
  {
    if group == 970310034 then Some(Rifles)
    else if group == 416676503 || group == 690389602 then Some(Handguns)
    else if group == 860033945 then Some(Shotguns)
    else if group == 3337201093 || group == 1159398588 then Some(SmgsLmgs)
    else if group == 1548507267 || group == 4257178988 || group == 1595662460 then Some(Throwables)
    else if group == 3566412244 || group == 2685387236 then Some(Melee)
    else if group == 2725924767 then Some(Heavy)
    else if group == 3082541095 then Some(Snipers)
    else None
  }

  /** The chain agrees with the table in both directions. */
  lemma CategoryOfMatchesTable(group: uint32, c: Category)
    ensures CategoryOf(group) == Some(c) <==> (group, c) in GroupTable
  {
  }

  /** A group id outside the table falls into no category. */
  lemma UnlistedGroupHasNoCategory(group: uint32)
    ensures CategoryOf(group) == None <==> forall i :: 0 <= i < |GroupTable| ==> GroupTable[i].0 != group
  {
    if CategoryOf(group).Some? {
      var c := CategoryOf(group).value;
      CategoryOfMatchesTable(group, c);
      var i :| 0 <= i < |GroupTable| && GroupTable[i] == (group, c);
    } else {
      forall i | 0 <= i < |GroupTable|
        ensures GroupTable[i].0 != group
      {
        CategoryOfMatchesTable(group, GroupTable[i].1);
      }
    }
  }

  /** No group id is listed twice, so the table is a partition: a weapon
      lands in one category or none, never two. */
  lemma GroupTableIsFunctional()
    ensures forall i, j :: 0 <= i < j < |GroupTable| ==> GroupTable[i].0 != GroupTable[j].0
  {
  }

  /** Every category has at least one group id, and the button order lists
      each category exactly once. */
  lemma CategoriesCovered(c: Category)
    ensures exists g :: CategoryOf(g) == Some(c)
    ensures |CategoryOrder| == 8 && c in CategoryOrder
    ensures forall i, j :: 0 <= i < j < |CategoryOrder| ==> CategoryOrder[i] != CategoryOrder[j]
  {
    match c
    case Handguns => assert CategoryOf(416676503) == Some(c);
    case Rifles => assert CategoryOf(970310034) == Some(c);
    case Shotguns => assert CategoryOf(860033945) == Some(c);
    case SmgsLmgs => assert CategoryOf(3337201093) == Some(c);
    case Throwables => assert CategoryOf(1548507267) == Some(c);
    case Melee => assert CategoryOf(3566412244) == Some(c);
    case Heavy => assert CategoryOf(2725924767) == Some(c);
    case Snipers => assert CategoryOf(3082541095) == Some(c);
  }

  /** The button order names every category. */
  lemma EveryCategoryListed()
    ensures forall c: Category :: c in CategoryOrder
  {
    forall c: Category
      ensures c in CategoryOrder
    {
      CategoriesCovered(c);
    }
  }
}
