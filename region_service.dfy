/** The static table of French departments grouped by administrative
    region, with the lookups the map view uses. */
module RegionService {

  import opened Wrappers

  const AuvergneRhoneAlpes: seq<string> := ["01", "03", "07", "15", "26", "38", "42", "43", "63", "69", "73", "74"]
  const BourgogneFrancheComte: seq<string> := ["21", "25", "39", "58", "70", "71", "89", "90"]
  const Bretagne: seq<string> := ["22", "29", "35", "56"]
  const CentreValDeLoire: seq<string> := ["18", "28", "36", "37", "41", "45"]
  const Corse: seq<string> := ["2A", "2B"]
  const GrandEst: seq<string> := ["08", "10", "51", "52", "54", "55", "57", "67", "68", "88"]
  const HautsDeFrance: seq<string> := ["02", "59", "60", "62", "80"]
  const IleDeFrance: seq<string> := ["75", "77", "78", "91", "92", "93", "94", "95"]
  const Normandie: seq<string> := ["14", "27", "50", "61", "76"]
  const NouvelleAquitaine: seq<string> := ["16", "17", "19", "23", "24", "33", "40", "47", "64", "79", "86", "87"]
  const Occitanie: seq<string> := ["09", "11", "12", "30", "31", "32", "34", "46", "48", "65", "66", "81", "82"]
  const PaysDeLaLoire: seq<string> := ["44", "49", "53", "72", "85"]
  const ProvenceAlpesCoteDAzur: seq<string> := ["04", "05", "06", "13", "83", "84"]
  const Guadeloupe: seq<string> := ["971"]
  const Martinique: seq<string> := ["972"]
  const Guyane: seq<string> := ["973"]
  const LaReunion: seq<string> := ["974"]

  /** `REGIONS`, in declaration order (the order of `Object.entries`). */
  const REGIONS: seq<(string, seq<string>)> := [
    ("Auvergne-Rhône-Alpes", AuvergneRhoneAlpes),
    ("Bourgogne-Franche-Comté", BourgogneFrancheComte),
    ("Bretagne", Bretagne),
    ("Centre-Val de Loire", CentreValDeLoire),
    ("Corse", Corse),
    ("Grand Est", GrandEst),
    ("Hauts-de-France", HautsDeFrance),
    ("Île-de-France", IleDeFrance),
    ("Normandie", Normandie),
    ("Nouvelle-Aquitaine", NouvelleAquitaine),
    ("Occitanie", Occitanie),
    ("Pays de la Loire", PaysDeLaLoire),
    ("Provence-Alpes-Côte d'Azur", ProvenceAlpesCoteDAzur),
    ("Guadeloupe", Guadeloupe),
    ("Martinique", Martinique),
    ("Guyane", Guyane),
    ("La Réunion", LaReunion)
  ]

  /** A number for a code of two or three characters, one base-128 digit
      per character code point: `"01"` is `48 * 128 + 49 = 6193`, `"2A"` is
      `50 * 128 + 65 = 6465` and `"971"` is `(57 * 128 + 55) * 128 + 49 =
      940977`. Equal codes have equal numbers, so a code has one number. */
  function CodeKey(code: string): int {
    if |code| == 2 then code[0] as int * 128 + code[1] as int
    else if |code| == 3 then (code[0] as int * 128 + code[1] as int) * 128 + code[2] as int
    else -1
  }

  /** The position in `REGIONS` (0 for Auvergne-Rhône-Alpes, ..., 16 for La
      Réunion) of the region listing the code with this number, -1 for a
      number no listed code has. It is a bisection over the 100 listed codes'
      numbers in increasing order. Its constants need not be trusted: the
      lemmas below check it against every list of the table, and every
      property of the table is derived from those lemmas, never from
      reading this tree. */
  function OwnerOf(key: int): int {
    if key < 6832 then
      if key < 6455 then
        if key < 6323 then
          if key < 6199 then
            if key < 6196 then
              if key < 6194 then
                if key == 6193 then 0 else -1
              else
                if key < 6195 then
                  if key == 6194 then 6 else -1
                else
                  if key == 6195 then 0 else -1
            else
              if key < 6197 then
                if key == 6196 then 12 else -1
              else
                if key < 6198 then
                  if key == 6197 then 12 else -1
                else
                  if key == 6198 then 12 else -1
          else
            if key < 6320 then
              if key < 6200 then
                if key == 6199 then 0 else -1
              else
                if key < 6201 then
                  if key == 6200 then 5 else -1
                else
                  if key == 6201 then 10 else -1
            else
              if key < 6321 then
                if key == 6320 then 5 else -1
              else
                if key < 6322 then
                  if key == 6321 then 10 else -1
                else
                  if key == 6322 then 10 else -1
        else
          if key < 6329 then
            if key < 6326 then
              if key < 6324 then
                if key == 6323 then 12 else -1
              else
                if key < 6325 then
                  if key == 6324 then 8 else -1
                else
                  if key == 6325 then 0 else -1
            else
              if key < 6327 then
                if key == 6326 then 9 else -1
              else
                if key < 6328 then
                  if key == 6327 then 9 else -1
                else
                  if key == 6328 then 3 else -1
          else
            if key < 6451 then
              if key < 6449 then
                if key == 6329 then 9 else -1
              else
                if key < 6450 then
                  if key == 6449 then 1 else -1
                else
                  if key == 6450 then 2 else -1
            else
              if key < 6453 then
                if key < 6452 then
                  if key == 6451 then 9 else -1
                else
                  if key == 6452 then 9 else -1
              else
                if key < 6454 then
                  if key == 6453 then 1 else -1
                else
                  if key == 6454 then 0 else -1
      else
        if key < 6583 then
          if key < 6577 then
            if key < 6465 then
              if key < 6456 then
                if key == 6455 then 8 else -1
              else
                if key < 6457 then
                  if key == 6456 then 3 else -1
                else
                  if key == 6457 then 2 else -1
            else
              if key < 6466 then
                if key == 6465 then 4 else -1
              else
                if key < 6576 then
                  if key == 6466 then 4 else -1
                else
                  if key == 6576 then 10 else -1
          else
            if key < 6580 then
              if key < 6578 then
                if key == 6577 then 10 else -1
              else
                if key < 6579 then
                  if key == 6578 then 10 else -1
                else
                  if key == 6579 then 9 else -1
            else
              if key < 6581 then
                if key == 6580 then 10 else -1
              else
                if key < 6582 then
                  if key == 6581 then 2 else -1
                else
                  if key == 6582 then 3 else -1
        else
          if key < 6707 then
            if key < 6704 then
              if key < 6584 then
                if key == 6583 then 3 else -1
              else
                if key < 6585 then
                  if key == 6584 then 0 else -1
                else
                  if key == 6585 then 1 else -1
            else
              if key < 6705 then
                if key == 6704 then 9 else -1
              else
                if key < 6706 then
                  if key == 6705 then 3 else -1
                else
                  if key == 6706 then 0 else -1
          else
            if key < 6710 then
              if key < 6708 then
                if key == 6707 then 0 else -1
              else
                if key < 6709 then
                  if key == 6708 then 11 else -1
                else
                  if key == 6709 then 3 else -1
            else
              if key < 6712 then
                if key < 6711 then
                  if key == 6710 then 10 else -1
                else
                  if key == 6711 then 9 else -1
              else
                if key < 6713 then
                  if key == 6712 then 10 else -1
                else
                  if key == 6713 then 11 else -1
    else
      if key < 7093 then
        if key < 6962 then
          if key < 6838 then
            if key < 6835 then
              if key < 6833 then
                if key == 6832 then 8 else -1
              else
                if key < 6834 then
                  if key == 6833 then 5 else -1
                else
                  if key == 6834 then 5 else -1
            else
              if key < 6836 then
                if key == 6835 then 11 else -1
              else
                if key < 6837 then
                  if key == 6836 then 5 else -1
                else
                  if key == 6837 then 5 else -1
          else
            if key < 6841 then
              if key < 6839 then
                if key == 6838 then 2 else -1
              else
                if key < 6840 then
                  if key == 6839 then 5 else -1
                else
                  if key == 6840 then 1 else -1
            else
              if key < 6960 then
                if key == 6841 then 6 else -1
              else
                if key < 6961 then
                  if key == 6960 then 6 else -1
                else
                  if key == 6961 then 8 else -1
        else
          if key < 6968 then
            if key < 6965 then
              if key < 6963 then
                if key == 6962 then 6 else -1
              else
                if key < 6964 then
                  if key == 6963 then 0 else -1
                else
                  if key == 6964 then 9 else -1
            else
              if key < 6966 then
                if key == 6965 then 10 else -1
              else
                if key < 6967 then
                  if key == 6966 then 10 else -1
                else
                  if key == 6967 then 5 else -1
          else
            if key < 7089 then
              if key < 6969 then
                if key == 6968 then 5 else -1
              else
                if key < 7088 then
                  if key == 6969 then 0 else -1
                else
                  if key == 7088 then 1 else -1
            else
              if key < 7091 then
                if key < 7090 then
                  if key == 7089 then 1 else -1
                else
                  if key == 7090 then 11 else -1
              else
                if key < 7092 then
                  if key == 7091 then 0 else -1
                else
                  if key == 7092 then 0 else -1
      else
        if key < 7223 then
          if key < 7217 then
            if key < 7096 then
              if key < 7094 then
                if key == 7093 then 7 else -1
              else
                if key < 7095 then
                  if key == 7094 then 8 else -1
                else
                  if key == 7095 then 7 else -1
            else
              if key < 7097 then
                if key == 7096 then 7 else -1
              else
                if key < 7216 then
                  if key == 7097 then 9 else -1
                else
                  if key == 7216 then 6 else -1
          else
            if key < 7220 then
              if key < 7218 then
                if key == 7217 then 10 else -1
              else
                if key < 7219 then
                  if key == 7218 then 10 else -1
                else
                  if key == 7219 then 12 else -1
            else
              if key < 7221 then
                if key == 7220 then 12 else -1
              else
                if key < 7222 then
                  if key == 7221 then 11 else -1
                else
                  if key == 7222 then 9 else -1
        else
          if key < 7347 then
            if key < 7344 then
              if key < 7224 then
                if key == 7223 then 9 else -1
              else
                if key < 7225 then
                  if key == 7224 then 5 else -1
                else
                  if key == 7225 then 1 else -1
            else
              if key < 7345 then
                if key == 7344 then 1 else -1
              else
                if key < 7346 then
                  if key == 7345 then 7 else -1
                else
                  if key == 7346 then 7 else -1
          else
            if key < 940977 then
              if key < 7348 then
                if key == 7347 then 7 else -1
              else
                if key < 7349 then
                  if key == 7348 then 7 else -1
                else
                  if key == 7349 then 7 else -1
            else
              if key < 940979 then
                if key < 940978 then
                  if key == 940977 then 13 else -1
                else
                  if key == 940978 then 14 else -1
              else
                if key < 940980 then
                  if key == 940979 then 15 else -1
                else
                  if key == 940980 then 16 else -1
  }

  /** One lemma per entry of `REGIONS`, in order: each code of the entry's
      list is numbered into that entry's position. */
  lemma AuvergneRhoneAlpesOwned()
    ensures forall d :: d in AuvergneRhoneAlpes ==> OwnerOf(CodeKey(d)) == 0
  {
  }

  lemma BourgogneFrancheComteOwned()
    ensures forall d :: d in BourgogneFrancheComte ==> OwnerOf(CodeKey(d)) == 1
  {
  }

  lemma BretagneOwned()
    ensures forall d :: d in Bretagne ==> OwnerOf(CodeKey(d)) == 2
  {
  }

  lemma CentreValDeLoireOwned()
    ensures forall d :: d in CentreValDeLoire ==> OwnerOf(CodeKey(d)) == 3
  {
  }

  lemma CorseOwned()
    ensures forall d :: d in Corse ==> OwnerOf(CodeKey(d)) == 4
  {
  }

  lemma GrandEstOwned()
    ensures forall d :: d in GrandEst ==> OwnerOf(CodeKey(d)) == 5
  {
  }

  lemma HautsDeFranceOwned()
    ensures forall d :: d in HautsDeFrance ==> OwnerOf(CodeKey(d)) == 6
  {
  }

  lemma IleDeFranceOwned()
    ensures forall d :: d in IleDeFrance ==> OwnerOf(CodeKey(d)) == 7
  {
  }

  lemma NormandieOwned()
    ensures forall d :: d in Normandie ==> OwnerOf(CodeKey(d)) == 8
  {
  }

  lemma NouvelleAquitaineOwned()
    ensures forall d :: d in NouvelleAquitaine ==> OwnerOf(CodeKey(d)) == 9
  {
  }

  lemma OccitanieOwned()
    ensures forall d :: d in Occitanie ==> OwnerOf(CodeKey(d)) == 10
  {
  }

  lemma PaysDeLaLoireOwned()
    ensures forall d :: d in PaysDeLaLoire ==> OwnerOf(CodeKey(d)) == 11
  {
  }

  lemma ProvenceAlpesCoteDAzurOwned()
    ensures forall d :: d in ProvenceAlpesCoteDAzur ==> OwnerOf(CodeKey(d)) == 12
  {
  }

  lemma GuadeloupeOwned()
    ensures forall d :: d in Guadeloupe ==> OwnerOf(CodeKey(d)) == 13
  {
  }

  lemma MartiniqueOwned()
    ensures forall d :: d in Martinique ==> OwnerOf(CodeKey(d)) == 14
  {
  }

  lemma GuyaneOwned()
    ensures forall d :: d in Guyane ==> OwnerOf(CodeKey(d)) == 15
  {
  }

  lemma LaReunionOwned()
    ensures forall d :: d in LaReunion ==> OwnerOf(CodeKey(d)) == 16
  {
  }

  /** The entry at each position of the table. */
  lemma RegionAt(k: int)
    requires 0 <= k < |REGIONS|
    ensures (k == 0 && REGIONS[k] == ("Auvergne-Rhône-Alpes", AuvergneRhoneAlpes)) ||
      (k == 1 && REGIONS[k] == ("Bourgogne-Franche-Comté", BourgogneFrancheComte)) ||
      (k == 2 && REGIONS[k] == ("Bretagne", Bretagne)) ||
      (k == 3 && REGIONS[k] == ("Centre-Val de Loire", CentreValDeLoire)) ||
      (k == 4 && REGIONS[k] == ("Corse", Corse)) ||
      (k == 5 && REGIONS[k] == ("Grand Est", GrandEst)) ||
      (k == 6 && REGIONS[k] == ("Hauts-de-France", HautsDeFrance)) ||
      (k == 7 && REGIONS[k] == ("Île-de-France", IleDeFrance)) ||
      (k == 8 && REGIONS[k] == ("Normandie", Normandie)) ||
      (k == 9 && REGIONS[k] == ("Nouvelle-Aquitaine", NouvelleAquitaine)) ||
      (k == 10 && REGIONS[k] == ("Occitanie", Occitanie)) ||
      (k == 11 && REGIONS[k] == ("Pays de la Loire", PaysDeLaLoire)) ||
      (k == 12 && REGIONS[k] == ("Provence-Alpes-Côte d'Azur", ProvenceAlpesCoteDAzur)) ||
      (k == 13 && REGIONS[k] == ("Guadeloupe", Guadeloupe)) ||
      (k == 14 && REGIONS[k] == ("Martinique", Martinique)) ||
      (k == 15 && REGIONS[k] == ("Guyane", Guyane)) ||
      (k == 16 && REGIONS[k] == ("La Réunion", LaReunion))
  {
  }

  /** Each listed code is owned by the region listing it. */
  lemma ListedCodesOwned()
    ensures forall k, d :: 0 <= k < |REGIONS| && d in REGIONS[k].1 ==> OwnerOf(CodeKey(d)) == k
  {
    AuvergneRhoneAlpesOwned();
    BourgogneFrancheComteOwned();
    BretagneOwned();
    CentreValDeLoireOwned();
    CorseOwned();
    GrandEstOwned();
    HautsDeFranceOwned();
    IleDeFranceOwned();
    NormandieOwned();
    NouvelleAquitaineOwned();
    OccitanieOwned();
    PaysDeLaLoireOwned();
    ProvenceAlpesCoteDAzurOwned();
    GuadeloupeOwned();
    MartiniqueOwned();
    GuyaneOwned();
    LaReunionOwned();
    forall k, d | 0 <= k < |REGIONS| && d in REGIONS[k].1
      ensures OwnerOf(CodeKey(d)) == k
    {
      RegionAt(k);
    }
  }

  /** No department code is listed under two regions: a listed code's
      number has one owner, and `ListedCodesOwned` makes that owner the
      position of every entry listing it. */
  lemma CodesDisjoint()
    ensures forall j, k, d :: 0 <= j < k < |REGIONS| && d in REGIONS[k].1 ==> d !in REGIONS[j].1
  {
    ListedCodesOwned();
    forall j, k, d | 0 <= j < k < |REGIONS| && d in REGIONS[k].1
      ensures d !in REGIONS[j].1
    {
      var owner := OwnerOf(CodeKey(d));
      assert owner == k;
    }
  }

  /** The name of the first entry whose list holds `code`. */
  function Find(entries: seq<(string, seq<string>)>, code: string): (r: Option<string>)
    ensures r.Some? ==> exists k :: 0 <= k < |entries| && entries[k].0 == r.value && code in entries[k].1
  {
    if |entries| == 0 then None
    else if code in entries[0].1 then Some(entries[0].0)
    else
      var r := Find(entries[1..], code);
      if r.Some? then
        var k :| 0 <= k < |entries| - 1 && entries[1..][k].0 == r.value && code in entries[1..][k].1;
        assert entries[k + 1] == entries[1..][k];
        r
      else r
  }

  /** The search answers the first listing entry. */
  lemma {:induction false} FindHit(entries: seq<(string, seq<string>)>, code: string, k: int)
    requires 0 <= k < |entries| && code in entries[k].1
    requires forall j :: 0 <= j < k ==> code !in entries[j].1
    ensures Find(entries, code) == Some(entries[k].0)
  {
    if k > 0 {
      FindHit(entries[1..], code, k - 1);
    }
  }

  /** The search finds nothing exactly when no entry lists the code. */
  lemma {:induction false} FindMiss(entries: seq<(string, seq<string>)>, code: string)
    ensures Find(entries, code).None? <==> forall k :: 0 <= k < |entries| ==> code !in entries[k].1
  {
    if |entries| > 0 {
      FindMiss(entries[1..], code);
      assert forall k :: 1 <= k < |entries| ==> entries[k] == entries[1..][k - 1];
    }
  }

  /** `getRegionForDepartment(code)`: the first region, in declaration order,
      listing the code, or `null`. */
  function RegionForDepartment(code: string): (r: Option<string>)
    ensures r.None? <==> forall k :: 0 <= k < |REGIONS| ==> code !in REGIONS[k].1
    ensures r.Some? ==> exists k :: 0 <= k < |REGIONS| && REGIONS[k].0 == r.value && code in REGIONS[k].1
  {
    FindMiss(REGIONS, code);
    Find(REGIONS, code)
  }

  /** The list of the first entry named `name`. */
  function Lookup(entries: seq<(string, seq<string>)>, name: string): (r: Option<seq<string>>)
    ensures r.Some? ==> exists k :: 0 <= k < |entries| && entries[k].0 == name && entries[k].1 == r.value
  {
    if |entries| == 0 then None
    else if entries[0].0 == name then Some(entries[0].1)
    else
      var r := Lookup(entries[1..], name);
      if r.Some? then
        var k :| 0 <= k < |entries| - 1 && entries[1..][k].0 == name && entries[1..][k].1 == r.value;
        assert entries[k + 1] == entries[1..][k];
        r
      else r
  }

  /** `getDepartmentsForRegion(name)`: the region's list, `[]` for an unknown name. */
  function DepartmentsForRegion(name: string): (codes: seq<string>)
    ensures (forall k :: 0 <= k < |REGIONS| ==> REGIONS[k].0 != name) ==> codes == []
    ensures codes != [] ==> exists k :: 0 <= k < |REGIONS| && REGIONS[k].0 == name && REGIONS[k].1 == codes
  {
    LookupMiss(REGIONS, name);
    match Lookup(REGIONS, name)
    case Some(codes) => codes
    case None => []
  }

  /** `getAllRegions()`: the region names in declaration order. */
  function AllRegions(): (names: seq<string>)
    ensures |names| == |REGIONS|
    ensures forall k :: 0 <= k < |REGIONS| ==> names[k] == REGIONS[k].0
  {
    seq(|REGIONS|, k requires 0 <= k < |REGIONS| => REGIONS[k].0)
  }
  /** The search over the names answers the first entry so named. */
  lemma {:induction false} LookupHit(entries: seq<(string, seq<string>)>, name: string, k: int)
    requires 0 <= k < |entries| && entries[k].0 == name
    requires forall j :: 0 <= j < k ==> entries[j].0 != name
    ensures Lookup(entries, name) == Some(entries[k].1)
  {
    if k > 0 {
      LookupHit(entries[1..], name, k - 1);
    }
  }

  /** The search over the names finds nothing exactly when no entry is so named. */
  lemma {:induction false} LookupMiss(entries: seq<(string, seq<string>)>, name: string)
    ensures Lookup(entries, name).None? <==> forall k :: 0 <= k < |entries| ==> entries[k].0 != name
  {
    if |entries| > 0 {
      LookupMiss(entries[1..], name);
      assert forall k :: 1 <= k < |entries| ==> entries[k] == entries[1..][k - 1];
    }
  }

  /** No region name is declared twice. */
  lemma NamesDistinct()
    ensures forall j, k :: 0 <= j < k < |REGIONS| ==> REGIONS[j].0 != REGIONS[k].0
  {
    forall j, k | 0 <= j < k < |REGIONS|
      ensures REGIONS[j].0 != REGIONS[k].0
    {
      RegionAt(j);
      RegionAt(k);
    }
  }

  /** Every listed code leads back to the region listing it. */
  lemma RegionOfListedCode(k: int, code: string)
    requires 0 <= k < |REGIONS| && code in REGIONS[k].1
    ensures RegionForDepartment(code) == Some(REGIONS[k].0)
  {
    CodesDisjoint();
    FindHit(REGIONS, code, k);
  }

  /** A code no region lists has no region. */
  lemma UnlistedCodeHasNoRegion(code: string)
    requires forall k :: 0 <= k < |REGIONS| ==> code !in REGIONS[k].1
    ensures RegionForDepartment(code) == None
  {
    FindMiss(REGIONS, code);
  }

  /** A declared region gets its own list back. */
  lemma DepartmentsOfDeclaredRegion(k: int)
    requires 0 <= k < |REGIONS|
    ensures DepartmentsForRegion(REGIONS[k].0) == REGIONS[k].1
  {
    NamesDistinct();
    LookupHit(REGIONS, REGIONS[k].0, k);
  }

  /** An undeclared name gets the empty list. */
  lemma DepartmentsOfUnknownRegion(name: string)
    requires name !in AllRegions()
    ensures DepartmentsForRegion(name) == []
  {
    LookupMiss(REGIONS, name);
    forall k | 0 <= k < |REGIONS|
      ensures REGIONS[k].0 != name
    {
      assert AllRegions()[k] == REGIONS[k].0;
    }
  }

  /** The two lookups invert each other: every department of a named region
      maps back to that region's name. */
  lemma DepartmentsMapBack(name: string, code: string)
    requires code in DepartmentsForRegion(name)
    ensures RegionForDepartment(code) == Some(name)
  {
    LookupMiss(REGIONS, name);
    if Lookup(REGIONS, name).None? {
      assert false;
    }
    var k :| 0 <= k < |REGIONS| && REGIONS[k].0 == name;
    DepartmentsOfDeclaredRegion(k);
    RegionOfListedCode(k, code);
  }

  /** The overseas departments each form a region of their own. */
  lemma OverseasRegions()
    ensures RegionForDepartment("971") == Some("Guadeloupe")
    ensures RegionForDepartment("972") == Some("Martinique")
    ensures RegionForDepartment("973") == Some("Guyane")
    ensures RegionForDepartment("974") == Some("La Réunion")
    ensures DepartmentsForRegion("La Réunion") == ["974"]
  {
    RegionAt(13);
    RegionAt(14);
    RegionAt(15);
    RegionAt(16);
    RegionOfListedCode(13, "971");
    RegionOfListedCode(14, "972");
    RegionOfListedCode(15, "973");
    RegionOfListedCode(16, "974");
    DepartmentsOfDeclaredRegion(16);
  }

  /** A code whose number no region owns is unlisted. */
  lemma UnownedCodeHasNoRegion(code: string)
    requires OwnerOf(CodeKey(code)) == -1
    ensures RegionForDepartment(code) == None
  {
    ListedCodesOwned();
    UnlistedCodeHasNoRegion(code);
  }

  /** The old Corsican code `20`, split into `2A` and `2B`, and a code past
      the last overseas department have no region. */
  lemma RetiredCodes()
    ensures RegionForDepartment("20") == None
    ensures RegionForDepartment("975") == None
  {
    UnownedCodeHasNoRegion("20");
    UnownedCodeHasNoRegion("975");
  }

  /** `Object.keys(REGIONS)` lists the seventeen regions in declaration order. */
  lemma AllRegionsInOrder()
    ensures AllRegions() == [
      "Auvergne-Rhône-Alpes", "Bourgogne-Franche-Comté", "Bretagne", "Centre-Val de Loire",
      "Corse", "Grand Est", "Hauts-de-France", "Île-de-France", "Normandie",
      "Nouvelle-Aquitaine", "Occitanie", "Pays de la Loire", "Provence-Alpes-Côte d'Azur",
      "Guadeloupe", "Martinique", "Guyane", "La Réunion"]
  {
  }
}
