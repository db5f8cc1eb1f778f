/**
 * The genre taxonomy of the station: the canonical parent/sub-genre hierarchy, the reverse
 * sub-genre-to-parent index built from it, and the tables that translate ID3 genre tags,
 * directory names and Discogs labels into that hierarchy.
 *
 * The source's dictionaries with string keys are written here as sequences of (key, value)
 * pairs in the order the source lists them; every key occurs once, so "the first pair with
 * this key" is the dictionary's lookup and the sequence order is its iteration order.
 */
module Taxonomy {
  import opened Wrappers
  import opened Text

  /** The eleven parent genres, the keys of TAXONOMY. */
  datatype Parent = Bass | Electronic | Chill | HipHop | DubReggae | Metal | Punk | BluesSoul | Jazz | Classical | PopRock
  {
    /** The name under which the parent is stored and shown. */
    function Name(): string {
      match this
      case Bass => "Bass"
      case Electronic => "Electronic"
      case Chill => "Chill"
      case HipHop => "Hip-Hop"
      case DubReggae => "Dub/Reggae"
      case Metal => "Metal"
      case Punk => "Punk"
      case BluesSoul => "Blues/Soul"
      case Jazz => "Jazz"
      case Classical => "Classical"
      case PopRock => "Pop/Rock"
    }
  }

  /** A place in the hierarchy: a parent genre and one of its sub-genres. */
  datatype Genre = Genre(parent: Parent, sub: string)

  // ---------------------------------------------------------------- canonical taxonomy

  const BassSubs: seq<string> := ["Dubstep", "Deep Dubstep", "Riddim", "Grime", "Garage", "Drum & Bass", "Leftfield Bass", "Freeform Bass"]
  const ElectronicSubs: seq<string> := ["House", "Deep House", "Progressive House", "Trance", "IDM", "Breakbeat", "Big Beat", "Glitch Hop"]
  const ChillSubs: seq<string> := ["Downtempo", "Chillout", "Lofi", "Ambient", "Trip Hop", "Chillstep"]
  const HipHopSubs: seq<string> := ["Hip-Hop", "Trap", "Beats"]
  const DubReggaeSubs: seq<string> := ["Dub", "Reggae"]
  const MetalSubs: seq<string> := ["Heavy Metal", "Death Metal", "Black Metal", "Doom", "Thrash", "Stoner/Sludge"]
  const PunkSubs: seq<string> := ["Punk", "Hardcore", "Post-Punk", "Crust", "Skate Punk"]
  const BluesSoulSubs: seq<string> := ["Blues", "R&B", "Soul", "Funk"]
  const JazzSubs: seq<string> := ["Bebop", "Cool Jazz", "Free Jazz", "Fusion", "Latin Jazz", "Swing"]
  const ClassicalSubs: seq<string> := ["Orchestral", "Chamber", "Solo", "Opera", "Modern/Contemporary"]
  const PopRockSubs: seq<string> := ["Pop", "Rock", "Indie", "Country", "Folk"]

  /** `TAXONOMY[parent]`: the sub-genres listed under a parent. */
  function SubsOf(parent: Parent): seq<string> {
    match parent
    case Bass => BassSubs
    case Electronic => ElectronicSubs
    case Chill => ChillSubs
    case HipHop => HipHopSubs
    case DubReggae => DubReggaeSubs
    case Metal => MetalSubs
    case Punk => PunkSubs
    case BluesSoul => BluesSoulSubs
    case Jazz => JazzSubs
    case Classical => ClassicalSubs
    case PopRock => PopRockSubs
  }

  /** The parents in the order TAXONOMY lists them. */
  const Parents: seq<Parent> := [Bass, Electronic, Chill, HipHop, DubReggae, Metal, Punk, BluesSoul, Jazz, Classical, PopRock]

  /** Every parent genre is listed exactly once. */
  lemma ParentsComplete(p: Parent)
    ensures exists i | 0 <= i < |Parents| :: Parents[i] == p
    ensures forall i, j | 0 <= i < j < |Parents| :: Parents[i] != Parents[j]
  {
    match p
    case Bass => assert Parents[0] == Bass;
    case Electronic => assert Parents[1] == Electronic;
    case Chill => assert Parents[2] == Chill;
    case HipHop => assert Parents[3] == HipHop;
    case DubReggae => assert Parents[4] == DubReggae;
    case Metal => assert Parents[5] == Metal;
    case Punk => assert Parents[6] == Punk;
    case BluesSoul => assert Parents[7] == BluesSoul;
    case Jazz => assert Parents[8] == Jazz;
    case Classical => assert Parents[9] == Classical;
    case PopRock => assert Parents[10] == PopRock;
  }

  /** Record every sub-genre of `subs` as belonging to `parent`, one assignment at a time. */
  function AddGroup(m: map<string, Parent>, parent: Parent, subs: seq<string>): (r: map<string, Parent>)
    ensures r.Keys == m.Keys + (set s | s in subs)
    ensures forall s | s in subs :: r[s] == parent
    ensures forall s | s in m && s !in subs :: r[s] == m[s]
    decreases |subs|
  {
    if subs == [] then m else AddGroup(m[subs[0] := parent], parent, subs[1..])
  }

  /** The nested loop over TAXONOMY's items that fills the reverse index. */
  function BuildSubToParent(m: map<string, Parent>, ps: seq<Parent>): map<string, Parent>
    decreases |ps|
  {
    if ps == [] then m else BuildSubToParent(AddGroup(m, ps[0], SubsOf(ps[0])), ps[1..])
  }

  /** SUB_TO_PARENT: sub-genre to parent genre. */
  const SubToParent: map<string, Parent> := BuildSubToParent(map[], Parents)

  /** VALID_PARENTS: the names of all parent genres. */
  const ValidParents: set<string> := set i | 0 <= i < |Parents| :: Parents[i].Name()

  /** VALID_SUBS: all sub-genres. */
  const ValidSubs: set<string> := SubToParent.Keys

  predicate Disjoint(a: seq<string>, b: seq<string>) {
    forall s | s in a :: s !in b
  }

  /** No sub-genre is listed under two of the parents `ps`. */
  ghost predicate GroupsDisjoint(ps: seq<Parent>) {
    forall i, j | 0 <= i < j < |ps| :: Disjoint(SubsOf(ps[i]), SubsOf(ps[j]))
  }

  /** A sub-genre that no group lists keeps whatever the index already said about it. */
  lemma {:induction false} BuildKeeps(m: map<string, Parent>, ps: seq<Parent>, s: string)
    requires forall i | 0 <= i < |ps| :: s !in SubsOf(ps[i])
    ensures s in BuildSubToParent(m, ps) <==> s in m
    ensures s in m ==> BuildSubToParent(m, ps)[s] == m[s]
    decreases |ps|
  {
    if ps != [] {
      assert forall i | 0 <= i < |ps[1..]| :: ps[1..][i] == ps[i + 1];
      BuildKeeps(AddGroup(m, ps[0], SubsOf(ps[0])), ps[1..], s);
    }
  }

  /** With disjoint groups, the index sends every sub-genre to the parent it is listed under. */
  lemma {:induction false} BuildInverts(m: map<string, Parent>, ps: seq<Parent>, i: nat, s: string)
    requires GroupsDisjoint(ps)
    requires i < |ps| && s in SubsOf(ps[i])
    ensures s in BuildSubToParent(m, ps) && BuildSubToParent(m, ps)[s] == ps[i]
    decreases |ps|
  {
    var m' := AddGroup(m, ps[0], SubsOf(ps[0]));
    if i == 0 {
      forall k | 0 <= k < |ps[1..]| ensures s !in SubsOf(ps[1..][k]) {
        assert ps[1..][k] == ps[k + 1];
        assert Disjoint(SubsOf(ps[0]), SubsOf(ps[k + 1]));
      }
      BuildKeeps(m', ps[1..], s);
    } else {
      forall a, b | 0 <= a < b < |ps[1..]| ensures Disjoint(SubsOf(ps[1..][a]), SubsOf(ps[1..][b])) {
        assert ps[1..][a] == ps[a + 1] && ps[1..][b] == ps[b + 1];
      }
      BuildInverts(m', ps[1..], i - 1, s);
    }
  }

  /** The index holds exactly the sub-genres some group lists. */
  lemma {:induction false} BuildKeys(m: map<string, Parent>, ps: seq<Parent>, s: string)
    ensures s in BuildSubToParent(m, ps) <==> s in m || exists i | 0 <= i < |ps| :: s in SubsOf(ps[i])
    decreases |ps|
  {
    if ps != [] {
      BuildKeys(AddGroup(m, ps[0], SubsOf(ps[0])), ps[1..], s);
      if exists i | 0 <= i < |ps| :: s in SubsOf(ps[i]) {
        var i :| 0 <= i < |ps| && s in SubsOf(ps[i]);
        if i > 0 {
          assert s in SubsOf(ps[1..][i - 1]);
        }
      }
      if exists i | 0 <= i < |ps[1..]| :: s in SubsOf(ps[1..][i]) {
        var i :| 0 <= i < |ps[1..]| && s in SubsOf(ps[1..][i]);
        assert s in SubsOf(ps[i + 1]);
      }
    }
  }

  lemma BassDisjointElectronic()
    ensures Disjoint(BassSubs, ElectronicSubs)
  {
  }

  lemma BassDisjointChill()
    ensures Disjoint(BassSubs, ChillSubs)
  {
  }

  lemma BassDisjointHipHop()
    ensures Disjoint(BassSubs, HipHopSubs)
  {
  }

  lemma BassDisjointDubReggae()
    ensures Disjoint(BassSubs, DubReggaeSubs)
  {
  }

  lemma BassDisjointMetal()
    ensures Disjoint(BassSubs, MetalSubs)
  {
  }

  lemma BassDisjointPunk()
    ensures Disjoint(BassSubs, PunkSubs)
  {
  }

  lemma BassDisjointBluesSoul()
    ensures Disjoint(BassSubs, BluesSoulSubs)
  {
  }

  lemma BassDisjointJazz()
    ensures Disjoint(BassSubs, JazzSubs)
  {
  }

  lemma BassDisjointClassical()
    ensures Disjoint(BassSubs, ClassicalSubs)
  {
  }

  lemma BassDisjointPopRock()
    ensures Disjoint(BassSubs, PopRockSubs)
  {
  }

  lemma ElectronicDisjointChill()
    ensures Disjoint(ElectronicSubs, ChillSubs)
  {
  }

  lemma ElectronicDisjointHipHop()
    ensures Disjoint(ElectronicSubs, HipHopSubs)
  {
  }

  lemma ElectronicDisjointDubReggae()
    ensures Disjoint(ElectronicSubs, DubReggaeSubs)
  {
  }

  lemma ElectronicDisjointMetal()
    ensures Disjoint(ElectronicSubs, MetalSubs)
  {
  }

  lemma ElectronicDisjointPunk()
    ensures Disjoint(ElectronicSubs, PunkSubs)
  {
  }

  lemma ElectronicDisjointBluesSoul()
    ensures Disjoint(ElectronicSubs, BluesSoulSubs)
  {
  }

  lemma ElectronicDisjointJazz()
    ensures Disjoint(ElectronicSubs, JazzSubs)
  {
  }

  lemma ElectronicDisjointClassical()
    ensures Disjoint(ElectronicSubs, ClassicalSubs)
  {
  }

  lemma ElectronicDisjointPopRock()
    ensures Disjoint(ElectronicSubs, PopRockSubs)
  {
  }

  lemma ChillDisjointHipHop()
    ensures Disjoint(ChillSubs, HipHopSubs)
  {
  }

  lemma ChillDisjointDubReggae()
    ensures Disjoint(ChillSubs, DubReggaeSubs)
  {
  }

  lemma ChillDisjointMetal()
    ensures Disjoint(ChillSubs, MetalSubs)
  {
  }

  lemma ChillDisjointPunk()
    ensures Disjoint(ChillSubs, PunkSubs)
  {
  }

  lemma ChillDisjointBluesSoul()
    ensures Disjoint(ChillSubs, BluesSoulSubs)
  {
  }

  lemma ChillDisjointJazz()
    ensures Disjoint(ChillSubs, JazzSubs)
  {
  }

  lemma ChillDisjointClassical()
    ensures Disjoint(ChillSubs, ClassicalSubs)
  {
  }

  lemma ChillDisjointPopRock()
    ensures Disjoint(ChillSubs, PopRockSubs)
  {
  }

  lemma HipHopDisjointDubReggae()
    ensures Disjoint(HipHopSubs, DubReggaeSubs)
  {
  }

  lemma HipHopDisjointMetal()
    ensures Disjoint(HipHopSubs, MetalSubs)
  {
  }

  lemma HipHopDisjointPunk()
    ensures Disjoint(HipHopSubs, PunkSubs)
  {
  }

  lemma HipHopDisjointBluesSoul()
    ensures Disjoint(HipHopSubs, BluesSoulSubs)
  {
  }

  lemma HipHopDisjointJazz()
    ensures Disjoint(HipHopSubs, JazzSubs)
  {
  }

  lemma HipHopDisjointClassical()
    ensures Disjoint(HipHopSubs, ClassicalSubs)
  {
  }

  lemma HipHopDisjointPopRock()
    ensures Disjoint(HipHopSubs, PopRockSubs)
  {
  }

  lemma DubReggaeDisjointMetal()
    ensures Disjoint(DubReggaeSubs, MetalSubs)
  {
  }

  lemma DubReggaeDisjointPunk()
    ensures Disjoint(DubReggaeSubs, PunkSubs)
  {
  }

  lemma DubReggaeDisjointBluesSoul()
    ensures Disjoint(DubReggaeSubs, BluesSoulSubs)
  {
  }

  lemma DubReggaeDisjointJazz()
    ensures Disjoint(DubReggaeSubs, JazzSubs)
  {
  }

  lemma DubReggaeDisjointClassical()
    ensures Disjoint(DubReggaeSubs, ClassicalSubs)
  {
  }

  lemma DubReggaeDisjointPopRock()
    ensures Disjoint(DubReggaeSubs, PopRockSubs)
  {
  }

  lemma MetalDisjointPunk()
    ensures Disjoint(MetalSubs, PunkSubs)
  {
  }

  lemma MetalDisjointBluesSoul()
    ensures Disjoint(MetalSubs, BluesSoulSubs)
  {
  }

  lemma MetalDisjointJazz()
    ensures Disjoint(MetalSubs, JazzSubs)
  {
  }

  lemma MetalDisjointClassical()
    ensures Disjoint(MetalSubs, ClassicalSubs)
  {
  }

  lemma MetalDisjointPopRock()
    ensures Disjoint(MetalSubs, PopRockSubs)
  {
  }

  lemma PunkDisjointBluesSoul()
    ensures Disjoint(PunkSubs, BluesSoulSubs)
  {
  }

  lemma PunkDisjointJazz()
    ensures Disjoint(PunkSubs, JazzSubs)
  {
  }

  lemma PunkDisjointClassical()
    ensures Disjoint(PunkSubs, ClassicalSubs)
  {
  }

  lemma PunkDisjointPopRock()
    ensures Disjoint(PunkSubs, PopRockSubs)
  {
  }

  lemma BluesSoulDisjointJazz()
    ensures Disjoint(BluesSoulSubs, JazzSubs)
  {
  }

  lemma BluesSoulDisjointClassical()
    ensures Disjoint(BluesSoulSubs, ClassicalSubs)
  {
  }

  lemma BluesSoulDisjointPopRock()
    ensures Disjoint(BluesSoulSubs, PopRockSubs)
  {
  }

  lemma JazzDisjointClassical()
    ensures Disjoint(JazzSubs, ClassicalSubs)
  {
  }

  lemma JazzDisjointPopRock()
    ensures Disjoint(JazzSubs, PopRockSubs)
  {
  }

  lemma ClassicalDisjointPopRock()
    ensures Disjoint(ClassicalSubs, PopRockSubs)
  {
  }

  /** No sub-genre is listed under two parents. */
  lemma TaxonomyGroupsDisjoint()
    ensures GroupsDisjoint(Parents)
  {
    forall i, j | 0 <= i < j < |Parents| ensures Disjoint(SubsOf(Parents[i]), SubsOf(Parents[j])) {
      if i == 0 {
        if j == 1 { BassDisjointElectronic(); }
        else if j == 2 { BassDisjointChill(); }
        else if j == 3 { BassDisjointHipHop(); }
        else if j == 4 { BassDisjointDubReggae(); }
        else if j == 5 { BassDisjointMetal(); }
        else if j == 6 { BassDisjointPunk(); }
        else if j == 7 { BassDisjointBluesSoul(); }
        else if j == 8 { BassDisjointJazz(); }
        else if j == 9 { BassDisjointClassical(); }
        else { BassDisjointPopRock(); }
      }
      else if i == 1 {
        if j == 2 { ElectronicDisjointChill(); }
        else if j == 3 { ElectronicDisjointHipHop(); }
        else if j == 4 { ElectronicDisjointDubReggae(); }
        else if j == 5 { ElectronicDisjointMetal(); }
        else if j == 6 { ElectronicDisjointPunk(); }
        else if j == 7 { ElectronicDisjointBluesSoul(); }
        else if j == 8 { ElectronicDisjointJazz(); }
        else if j == 9 { ElectronicDisjointClassical(); }
        else { ElectronicDisjointPopRock(); }
      }
      else if i == 2 {
        if j == 3 { ChillDisjointHipHop(); }
        else if j == 4 { ChillDisjointDubReggae(); }
        else if j == 5 { ChillDisjointMetal(); }
        else if j == 6 { ChillDisjointPunk(); }
        else if j == 7 { ChillDisjointBluesSoul(); }
        else if j == 8 { ChillDisjointJazz(); }
        else if j == 9 { ChillDisjointClassical(); }
        else { ChillDisjointPopRock(); }
      }
      else if i == 3 {
        if j == 4 { HipHopDisjointDubReggae(); }
        else if j == 5 { HipHopDisjointMetal(); }
        else if j == 6 { HipHopDisjointPunk(); }
        else if j == 7 { HipHopDisjointBluesSoul(); }
        else if j == 8 { HipHopDisjointJazz(); }
        else if j == 9 { HipHopDisjointClassical(); }
        else { HipHopDisjointPopRock(); }
      }
      else if i == 4 {
        if j == 5 { DubReggaeDisjointMetal(); }
        else if j == 6 { DubReggaeDisjointPunk(); }
        else if j == 7 { DubReggaeDisjointBluesSoul(); }
        else if j == 8 { DubReggaeDisjointJazz(); }
        else if j == 9 { DubReggaeDisjointClassical(); }
        else { DubReggaeDisjointPopRock(); }
      }
      else if i == 5 {
        if j == 6 { MetalDisjointPunk(); }
        else if j == 7 { MetalDisjointBluesSoul(); }
        else if j == 8 { MetalDisjointJazz(); }
        else if j == 9 { MetalDisjointClassical(); }
        else { MetalDisjointPopRock(); }
      }
      else if i == 6 {
        if j == 7 { PunkDisjointBluesSoul(); }
        else if j == 8 { PunkDisjointJazz(); }
        else if j == 9 { PunkDisjointClassical(); }
        else { PunkDisjointPopRock(); }
      }
      else if i == 7 {
        if j == 8 { BluesSoulDisjointJazz(); }
        else if j == 9 { BluesSoulDisjointClassical(); }
        else { BluesSoulDisjointPopRock(); }
      }
      else if i == 8 {
        if j == 9 { JazzDisjointClassical(); }
        else { JazzDisjointPopRock(); }
      }
      else {
        ClassicalDisjointPopRock();
      }
    }
  }

  /** `g` is a pair TAXONOMY lists: its sub-genre is listed under its parent. */
  predicate Listed(g: Genre) {
    g.sub in SubsOf(g.parent)
  }

  /** A table value is either "no genre" or a listed pair. */
  predicate TargetListed(t: Option<Genre>) {
    t.Some? ==> Listed(t.value)
  }

  /** Every listed sub-genre is in SUB_TO_PARENT, under the parent that lists it. */
  lemma SubToParentOfListed(i: int, s: string)
    requires 0 <= i < |Parents| && s in SubsOf(Parents[i])
    ensures s in SubToParent && SubToParent[s] == Parents[i]
  {
    TaxonomyGroupsDisjoint();
    BuildInverts(map[], Parents, i, s);
  }

  /** SUB_TO_PARENT holds the listed sub-genres and nothing else. */
  lemma SubToParentKeys(s: string)
    ensures s in SubToParent <==> exists i | 0 <= i < |Parents| :: s in SubsOf(Parents[i])
  {
    BuildKeys(map[], Parents, s);
  }

  /**
   * SUB_TO_PARENT inverts TAXONOMY: a sub-genre is in the index exactly when some parent lists
   * it, and the index names that parent.
   */
  lemma SubToParentInvertsTaxonomy(g: Genre)
    ensures Listed(g) <==> g.sub in SubToParent && SubToParent[g.sub] == g.parent
    ensures g.sub in SubToParent <==> exists p :: Listed(Genre(p, g.sub))
  {
    SubToParentKeys(g.sub);
    ParentsComplete(g.parent);
    var k :| 0 <= k < |Parents| && Parents[k] == g.parent;
    if Listed(g) {
      SubToParentOfListed(k, g.sub);
    }
    if g.sub in SubToParent {
      var i :| 0 <= i < |Parents| && g.sub in SubsOf(Parents[i]);
      SubToParentOfListed(i, g.sub);
      assert Listed(Genre(Parents[i], g.sub));
    }
    if exists p :: Listed(Genre(p, g.sub)) {
      var p :| Listed(Genre(p, g.sub));
      ParentsComplete(p);
      var j :| 0 <= j < |Parents| && Parents[j] == p;
      SubToParentOfListed(j, g.sub);
    }
  }

  // ---------------------------------------------------------------- content-type directories

  /** Top-level directories whose files are not music, with the content type they imply. */
  const ContentTypeDirs: map<string, string> := map[
    "callsigns" := "callsign",
    "commercials" := "commercial",
    "promos" := "promo",
    "talking_clips" := "talking",
    "SHOWS" := "talking",
    "abnormal" := "promo"
  ]

  // ---------------------------------------------------------------- directory hints

  /** Directory-name fragments, matched case-insensitively, that imply a genre. */
  const DirectoryHints: seq<(string, Genre)> := [
    ("MOBCOIN_DEEP_DUBSTEAP", Genre(Bass, "Dubstep")),
    ("Downtempo:Lofi", Genre(Chill, "Lofi")),
    ("deltron", Genre(HipHop, "Hip-Hop")),
    ("Animatrix", Genre(Electronic, "IDM")),
    ("NinjaSexParty", Genre(PopRock, "Pop"))
  ]

  // ---------------------------------------------------------------- ID3 tag table

  /** Every observed ID3 genre string with its target; `None` marks a string that is known
      but deliberately maps to no genre. */
  const TagNormalize: seq<(string, Option<Genre>)> :=
    TagDubstepVariants + TagDubstepCombos + TagGarage + TagBass
    + TagDrumAndBass + TagElectronic + TagChill + TagGlitchHop
    + TagTrance + TagHipHop + TagDubReggae + TagBlues
    + TagPopRock + TagDafuqMisc + TagCatchAll

  // Dubstep variants
  const TagDubstepVariants: seq<(string, Option<Genre>)> := [
    ("Dubstep", Some(Genre(Bass, "Dubstep"))),
    ("DubStep", Some(Genre(Bass, "Dubstep"))),
    ("dubstep", Some(Genre(Bass, "Dubstep"))),
    ("Deep Dubstep", Some(Genre(Bass, "Deep Dubstep"))),
    ("Deep dubstep", Some(Genre(Bass, "Deep Dubstep"))),
    ("Vocal Deep Dubstep", Some(Genre(Bass, "Deep Dubstep"))),
    ("DafuQ! [Dubstep]", Some(Genre(Bass, "Dubstep"))),
    ("Dirty/Heavy Dubstep/Grime", Some(Genre(Bass, "Dubstep"))),
    ("Dirty/heavy Dubstep/grime", Some(Genre(Bass, "Dubstep"))),
    ("Heavy Dubstep/Grime", Some(Genre(Bass, "Dubstep"))),
    ("Ambient Dubstep", Some(Genre(Chill, "Chillstep"))),
    ("LoveStep", Some(Genre(Bass, "Dubstep"))),
    ("Dubstep,dub", Some(Genre(Bass, "Dubstep")))
  ]
  // Dubstep / combo tags
  const TagDubstepCombos: seq<(string, Option<Genre>)> := [
    ("Dubstep/Grime", Some(Genre(Bass, "Grime"))),
    ("Dubstep / Grime / Funky", Some(Genre(Bass, "Grime"))),
    ("Dubstep / Riddim", Some(Genre(Bass, "Riddim"))),
    ("Dubstep / Trap", Some(Genre(HipHop, "Trap"))),
    ("Dubstep / 2step ", Some(Genre(Bass, "Garage"))),
    ("Dubstep / 2step", Some(Genre(Bass, "Garage")))
  ]
  // Garage
  const TagGarage: seq<(string, Option<Genre>)> := [
    ("FutureGarage", Some(Genre(Bass, "Garage"))),
    ("Garage / Bassline / Grime", Some(Genre(Bass, "Garage"))),
    ("Deep Dubstep, Future Garage", Some(Genre(Bass, "Garage")))
  ]
  // Bass
  const TagBass: seq<(string, Option<Genre>)> := [
    ("Bass", Some(Genre(Bass, "Leftfield Bass"))),
    ("Bass Music", Some(Genre(Bass, "Leftfield Bass"))),
    ("Freeform Bass", Some(Genre(Bass, "Freeform Bass"))),
    ("Leftfield Bass", Some(Genre(Bass, "Leftfield Bass")))
  ]
  // Drum & Bass
  const TagDrumAndBass: seq<(string, Option<Genre>)> := [
    ("Drum & Bass", Some(Genre(Bass, "Drum & Bass"))),
    ("DafuQ! [DnB]", Some(Genre(Bass, "Drum & Bass")))
  ]
  // Electronic
  const TagElectronic: seq<(string, Option<Genre>)> := [
    ("Electronic", Some(Genre(Electronic, "House"))),
    ("Electonic", Some(Genre(Electronic, "House"))),
    ("electronic", Some(Genre(Electronic, "House"))),
    ("House", Some(Genre(Electronic, "House"))),
    ("Deep House", Some(Genre(Electronic, "Deep House"))),
    ("Classic Progressive House", Some(Genre(Electronic, "Progressive House"))),
    ("IDM, Downtempo", Some(Genre(Electronic, "IDM"))),
    ("Big Beat", Some(Genre(Electronic, "Big Beat"))),
    ("Breakbeat", Some(Genre(Electronic, "Breakbeat"))),
    ("Dance", Some(Genre(Electronic, "House")))
  ]
  // Chill
  const TagChill: seq<(string, Option<Genre>)> := [
    ("Chillout", Some(Genre(Chill, "Chillout"))),
    ("Chill Out", Some(Genre(Chill, "Chillout"))),
    ("Chill/The XXX", Some(Genre(Chill, "Chillout"))),
    ("DafuQ! [Chill]", Some(Genre(Chill, "Chillout"))),
    ("Chillstep", Some(Genre(Chill, "Chillstep"))),
    ("Chill Step", Some(Genre(Chill, "Chillstep"))),
    ("Downtempo", Some(Genre(Chill, "Downtempo"))),
    ("Trip Hop", Some(Genre(Chill, "Trip Hop"))),
    ("Abstract", Some(Genre(Chill, "Ambient")))
  ]
  // Glitch Hop
  const TagGlitchHop: seq<(string, Option<Genre>)> := [
    ("Glitch Hop", Some(Genre(Electronic, "Glitch Hop"))),
    ("Glitch-Hop", Some(Genre(Electronic, "Glitch Hop")))
  ]
  // Trance
  const TagTrance: seq<(string, Option<Genre>)> := [
    ("Psychedelic Trance", Some(Genre(Electronic, "Trance")))
  ]
  // Hip-Hop
  const TagHipHop: seq<(string, Option<Genre>)> := [
    ("Hip-Hop", Some(Genre(HipHop, "Hip-Hop"))),
    ("Hip-Hop Beats", Some(Genre(HipHop, "Beats"))),
    ("Beats", Some(Genre(HipHop, "Beats"))),
    ("Trap", Some(Genre(HipHop, "Trap"))),
    ("DafuQ! [Trap]", Some(Genre(HipHop, "Trap"))),
    ("Gangsta", Some(Genre(HipHop, "Hip-Hop")))
  ]
  // Dub / Reggae
  const TagDubReggae: seq<(string, Option<Genre>)> := [
    ("Dub", Some(Genre(DubReggae, "Dub"))),
    ("Dub / Reggae", Some(Genre(DubReggae, "Dub")))
  ]
  // Blues
  const TagBlues: seq<(string, Option<Genre>)> := [
    ("Blues", Some(Genre(BluesSoul, "Blues"))),
    ("R&B", Some(Genre(BluesSoul, "R&B")))
  ]
  // Pop / Rock
  const TagPopRock: seq<(string, Option<Genre>)> := [
    ("Pop", Some(Genre(PopRock, "Pop"))),
    ("Country", Some(Genre(PopRock, "Country"))),
    ("Remix", Some(Genre(Electronic, "House")))
  ]
  // DafuQ misc
  const TagDafuqMisc: seq<(string, Option<Genre>)> := [
    ("DafuQ! [Hipster]", Some(Genre(PopRock, "Indie")))
  ]
  // Catch-all
  const TagCatchAll: seq<(string, Option<Genre>)> := [
    ("Other", None),
    ("Kulemina", None)
  ]

  // ---------------------------------------------------------------- Discogs label table

  /** Discogs labels ("Broad---Specific", as the MAEST model emits them) with their targets. */
  const DiscogsTable: seq<(string, Option<Genre>)> :=
    DiscogsElectronicToBass + DiscogsElectronicToElectronic1 + DiscogsElectronicToElectronic2 + DiscogsElectronicToChill
    + DiscogsElectronicMisc1 + DiscogsElectronicMisc2 + DiscogsHipHop1 + DiscogsHipHop2
    + DiscogsRockVarious1 + DiscogsRockVarious2 + DiscogsRockVarious3 + DiscogsRockToMetal1
    + DiscogsRockToMetal2 + DiscogsRockToPunk1 + DiscogsRockToPunk2 + DiscogsJazz1
    + DiscogsJazz2 + DiscogsClassical + DiscogsBlues + DiscogsFunkSoul1
    + DiscogsFunkSoul2 + DiscogsReggae + DiscogsPop + DiscogsFolkCountry
    + DiscogsLatin + DiscogsNonMusic + DiscogsStageScreen + DiscogsBrassMilitary

  // Electronic -> Bass
  const DiscogsElectronicToBass: seq<(string, Option<Genre>)> := [
    ("Electronic---Dubstep", Some(Genre(Bass, "Dubstep"))),
    ("Electronic---Drum n Bass", Some(Genre(Bass, "Drum & Bass"))),
    ("Electronic---Jungle", Some(Genre(Bass, "Drum & Bass"))),
    ("Electronic---Grime", Some(Genre(Bass, "Grime"))),
    ("Electronic---UK Garage", Some(Genre(Bass, "Garage"))),
    ("Electronic---Speed Garage", Some(Genre(Bass, "Garage"))),
    ("Electronic---Garage House", Some(Genre(Bass, "Garage"))),
    ("Electronic---Bassline", Some(Genre(Bass, "Leftfield Bass"))),
    ("Electronic---Halftime", Some(Genre(Bass, "Leftfield Bass"))),
    ("Electronic---Leftfield", Some(Genre(Bass, "Leftfield Bass")))
  ]
  // Electronic -> Electronic
  const DiscogsElectronicToElectronic1: seq<(string, Option<Genre>)> := [
    ("Electronic---House", Some(Genre(Electronic, "House"))),
    ("Electronic---Deep House", Some(Genre(Electronic, "Deep House"))),
    ("Electronic---Tech House", Some(Genre(Electronic, "House"))),
    ("Electronic---Tribal House", Some(Genre(Electronic, "House"))),
    ("Electronic---Acid House", Some(Genre(Electronic, "House"))),
    ("Electronic---Electro House", Some(Genre(Electronic, "House"))),
    ("Electronic---Euro House", Some(Genre(Electronic, "House"))),
    ("Electronic---Italo House", Some(Genre(Electronic, "House"))),
    ("Electronic---Ghetto House", Some(Genre(Electronic, "House"))),
    ("Electronic---Progressive House", Some(Genre(Electronic, "Progressive House"))),
    ("Electronic---Trance", Some(Genre(Electronic, "Trance")))
  ]
  // Electronic -> Electronic (continued)
  const DiscogsElectronicToElectronic2: seq<(string, Option<Genre>)> := [
    ("Electronic---Psy-Trance", Some(Genre(Electronic, "Trance"))),
    ("Electronic---Goa Trance", Some(Genre(Electronic, "Trance"))),
    ("Electronic---Progressive Trance", Some(Genre(Electronic, "Trance"))),
    ("Electronic---Hard Trance", Some(Genre(Electronic, "Trance"))),
    ("Electronic---Tech Trance", Some(Genre(Electronic, "Trance"))),
    ("Electronic---IDM", Some(Genre(Electronic, "IDM"))),
    ("Electronic---Breakbeat", Some(Genre(Electronic, "Breakbeat"))),
    ("Electronic---Breaks", Some(Genre(Electronic, "Breakbeat"))),
    ("Electronic---Progressive Breaks", Some(Genre(Electronic, "Breakbeat"))),
    ("Electronic---Big Beat", Some(Genre(Electronic, "Big Beat"))),
    ("Electronic---Glitch", Some(Genre(Electronic, "Glitch Hop")))
  ]
  // Electronic -> Chill
  const DiscogsElectronicToChill: seq<(string, Option<Genre>)> := [
    ("Electronic---Downtempo", Some(Genre(Chill, "Downtempo"))),
    ("Electronic---Ambient", Some(Genre(Chill, "Ambient"))),
    ("Electronic---Dark Ambient", Some(Genre(Chill, "Ambient"))),
    ("Electronic---Chillwave", Some(Genre(Chill, "Chillout"))),
    ("Electronic---Trip Hop", Some(Genre(Chill, "Trip Hop"))),
    ("Electronic---New Age", Some(Genre(Chill, "Ambient"))),
    ("Electronic---Drone", Some(Genre(Chill, "Ambient")))
  ]
  // Electronic misc
  const DiscogsElectronicMisc1: seq<(string, Option<Genre>)> := [
    ("Electronic---Techno", Some(Genre(Electronic, "House"))),
    ("Electronic---Minimal Techno", Some(Genre(Electronic, "House"))),
    ("Electronic---Deep Techno", Some(Genre(Electronic, "House"))),
    ("Electronic---Dub Techno", Some(Genre(Electronic, "House"))),
    ("Electronic---Acid", Some(Genre(Electronic, "House"))),
    ("Electronic---Electro", Some(Genre(Electronic, "Breakbeat"))),
    ("Electronic---Disco", Some(Genre(Electronic, "House"))),
    ("Electronic---Nu-Disco", Some(Genre(Electronic, "House"))),
    ("Electronic---Synthwave", Some(Genre(Electronic, "House"))),
    ("Electronic---Synth-pop", Some(Genre(Electronic, "House")))
  ]
  // Electronic misc (continued)
  const DiscogsElectronicMisc2: seq<(string, Option<Genre>)> := [
    ("Electronic---EBM", Some(Genre(Electronic, "House"))),
    ("Electronic---Industrial", Some(Genre(Electronic, "Breakbeat"))),
    ("Electronic---Noise", Some(Genre(Electronic, "IDM"))),
    ("Electronic---Experimental", Some(Genre(Electronic, "IDM"))),
    ("Electronic---Abstract", Some(Genre(Chill, "Ambient"))),
    ("Electronic---Dub", Some(Genre(DubReggae, "Dub"))),
    ("Electronic---Vaporwave", Some(Genre(Chill, "Lofi"))),
    ("Electronic---Hip Hop", Some(Genre(HipHop, "Hip-Hop"))),
    ("Electronic---Modern Classical", Some(Genre(Classical, "Modern/Contemporary"))),
    ("Electronic---Sound Collage", Some(Genre(Electronic, "IDM")))
  ]
  // Hip Hop
  const DiscogsHipHop1: seq<(string, Option<Genre>)> := [
    ("Hip Hop---Bass Music", Some(Genre(Bass, "Leftfield Bass"))),
    ("Hip Hop---Boom Bap", Some(Genre(HipHop, "Hip-Hop"))),
    ("Hip Hop---Conscious", Some(Genre(HipHop, "Hip-Hop"))),
    ("Hip Hop---Gangsta", Some(Genre(HipHop, "Hip-Hop"))),
    ("Hip Hop---Hardcore Hip-Hop", Some(Genre(HipHop, "Hip-Hop"))),
    ("Hip Hop---Instrumental", Some(Genre(HipHop, "Beats"))),
    ("Hip Hop---Jazzy Hip-Hop", Some(Genre(HipHop, "Hip-Hop"))),
    ("Hip Hop---Pop Rap", Some(Genre(HipHop, "Hip-Hop"))),
    ("Hip Hop---Trap", Some(Genre(HipHop, "Trap"))),
    ("Hip Hop---Trip Hop", Some(Genre(Chill, "Trip Hop"))),
    ("Hip Hop---Turntablism", Some(Genre(HipHop, "Hip-Hop"))),
    ("Hip Hop---Grime", Some(Genre(Bass, "Grime")))
  ]
  // Hip Hop (continued)
  const DiscogsHipHop2: seq<(string, Option<Genre>)> := [
    ("Hip Hop---Cloud Rap", Some(Genre(HipHop, "Hip-Hop"))),
    ("Hip Hop---Cut-up/DJ", Some(Genre(HipHop, "Beats"))),
    ("Hip Hop---G-Funk", Some(Genre(HipHop, "Hip-Hop"))),
    ("Hip Hop---Miami Bass", Some(Genre(HipHop, "Hip-Hop"))),
    ("Hip Hop---RnB/Swing", Some(Genre(BluesSoul, "R&B"))),
    ("Hip Hop---Crunk", Some(Genre(HipHop, "Trap"))),
    ("Hip Hop---Bounce", Some(Genre(HipHop, "Hip-Hop"))),
    ("Hip Hop---Electro", Some(Genre(HipHop, "Hip-Hop"))),
    ("Hip Hop---Ragga HipHop", Some(Genre(HipHop, "Hip-Hop"))),
    ("Hip Hop---Screw", Some(Genre(HipHop, "Hip-Hop"))),
    ("Hip Hop---Thug Rap", Some(Genre(HipHop, "Hip-Hop")))
  ]
  // Rock -> various
  const DiscogsRockVarious1: seq<(string, Option<Genre>)> := [
    ("Rock---Alternative Rock", Some(Genre(PopRock, "Rock"))),
    ("Rock---Classic Rock", Some(Genre(PopRock, "Rock"))),
    ("Rock---Hard Rock", Some(Genre(PopRock, "Rock"))),
    ("Rock---Indie Rock", Some(Genre(PopRock, "Indie"))),
    ("Rock---Pop Rock", Some(Genre(PopRock, "Pop"))),
    ("Rock---Brit Pop", Some(Genre(PopRock, "Pop"))),
    ("Rock---Grunge", Some(Genre(PopRock, "Rock"))),
    ("Rock---Garage Rock", Some(Genre(PopRock, "Rock"))),
    ("Rock---Blues Rock", Some(Genre(BluesSoul, "Blues"))),
    ("Rock---Folk Rock", Some(Genre(PopRock, "Folk")))
  ]
  // Rock -> various (continued)
  const DiscogsRockVarious2: seq<(string, Option<Genre>)> := [
    ("Rock---Country Rock", Some(Genre(PopRock, "Country"))),
    ("Rock---Psychedelic Rock", Some(Genre(PopRock, "Rock"))),
    ("Rock---Prog Rock", Some(Genre(PopRock, "Rock"))),
    ("Rock---Art Rock", Some(Genre(PopRock, "Rock"))),
    ("Rock---Post Rock", Some(Genre(PopRock, "Rock"))),
    ("Rock---Shoegaze", Some(Genre(PopRock, "Indie"))),
    ("Rock---Dream Pop", Some(Genre(PopRock, "Indie"))),
    ("Rock---Soft Rock", Some(Genre(PopRock, "Rock"))),
    ("Rock---Surf", Some(Genre(PopRock, "Rock"))),
    ("Rock---Rockabilly", Some(Genre(PopRock, "Rock")))
  ]
  // Rock -> various (continued)
  const DiscogsRockVarious3: seq<(string, Option<Genre>)> := [
    ("Rock---Rock & Roll", Some(Genre(PopRock, "Rock"))),
    ("Rock---Acoustic", Some(Genre(PopRock, "Folk"))),
    ("Rock---Southern Rock", Some(Genre(PopRock, "Rock"))),
    ("Rock---Space Rock", Some(Genre(PopRock, "Rock"))),
    ("Rock---Krautrock", Some(Genre(Electronic, "IDM"))),
    ("Rock---New Wave", Some(Genre(PopRock, "Pop"))),
    ("Rock---Lo-Fi", Some(Genre(Chill, "Lofi"))),
    ("Rock---Math Rock", Some(Genre(PopRock, "Rock"))),
    ("Rock---Noise", Some(Genre(PopRock, "Rock"))),
    ("Rock---Experimental", Some(Genre(PopRock, "Rock")))
  ]
  // Rock -> Metal
  const DiscogsRockToMetal1: seq<(string, Option<Genre>)> := [
    ("Rock---Heavy Metal", Some(Genre(Metal, "Heavy Metal"))),
    ("Rock---Death Metal", Some(Genre(Metal, "Death Metal"))),
    ("Rock---Black Metal", Some(Genre(Metal, "Black Metal"))),
    ("Rock---Atmospheric Black Metal", Some(Genre(Metal, "Black Metal"))),
    ("Rock---Depressive Black Metal", Some(Genre(Metal, "Black Metal"))),
    ("Rock---Doom Metal", Some(Genre(Metal, "Doom"))),
    ("Rock---Funeral Doom Metal", Some(Genre(Metal, "Doom"))),
    ("Rock---Thrash", Some(Genre(Metal, "Thrash"))),
    ("Rock---Speed Metal", Some(Genre(Metal, "Thrash"))),
    ("Rock---Stoner Rock", Some(Genre(Metal, "Stoner/Sludge"))),
    ("Rock---Sludge Metal", Some(Genre(Metal, "Stoner/Sludge"))),
    ("Rock---Nu Metal", Some(Genre(Metal, "Heavy Metal"))),
    ("Rock---Power Metal", Some(Genre(Metal, "Heavy Metal")))
  ]
  // Rock -> Metal (continued)
  const DiscogsRockToMetal2: seq<(string, Option<Genre>)> := [
    ("Rock---Progressive Metal", Some(Genre(Metal, "Heavy Metal"))),
    ("Rock---Gothic Metal", Some(Genre(Metal, "Heavy Metal"))),
    ("Rock---Folk Metal", Some(Genre(Metal, "Heavy Metal"))),
    ("Rock---Viking Metal", Some(Genre(Metal, "Heavy Metal"))),
    ("Rock---Funk Metal", Some(Genre(Metal, "Heavy Metal"))),
    ("Rock---Metalcore", Some(Genre(Metal, "Heavy Metal"))),
    ("Rock---Deathcore", Some(Genre(Metal, "Death Metal"))),
    ("Rock---Technical Death Metal", Some(Genre(Metal, "Death Metal"))),
    ("Rock---Melodic Death Metal", Some(Genre(Metal, "Death Metal"))),
    ("Rock---Post-Metal", Some(Genre(Metal, "Doom"))),
    ("Rock---Symphonic Rock", Some(Genre(PopRock, "Rock"))),
    ("Rock---Grindcore", Some(Genre(Metal, "Thrash"))),
    ("Rock---Goregrind", Some(Genre(Metal, "Thrash")))
  ]
  // Rock -> Punk
  const DiscogsRockToPunk1: seq<(string, Option<Genre>)> := [
    ("Rock---Punk", Some(Genre(Punk, "Punk"))),
    ("Rock---Hardcore", Some(Genre(Punk, "Hardcore"))),
    ("Rock---Post-Hardcore", Some(Genre(Punk, "Hardcore"))),
    ("Rock---Melodic Hardcore", Some(Genre(Punk, "Hardcore"))),
    ("Rock---Post-Punk", Some(Genre(Punk, "Post-Punk"))),
    ("Rock---Crust", Some(Genre(Punk, "Crust"))),
    ("Rock---Pop Punk", Some(Genre(Punk, "Skate Punk")))
  ]
  // Rock -> Punk (continued)
  const DiscogsRockToPunk2: seq<(string, Option<Genre>)> := [
    ("Rock---Oi", Some(Genre(Punk, "Punk"))),
    ("Rock---Psychobilly", Some(Genre(Punk, "Punk"))),
    ("Rock---Power Violence", Some(Genre(Punk, "Hardcore"))),
    ("Rock---Emo", Some(Genre(Punk, "Post-Punk"))),
    ("Rock---Goth Rock", Some(Genre(Punk, "Post-Punk"))),
    ("Rock---Deathrock", Some(Genre(Punk, "Post-Punk"))),
    ("Rock---Coldwave", Some(Genre(Punk, "Post-Punk")))
  ]
  // Jazz
  const DiscogsJazz1: seq<(string, Option<Genre>)> := [
    ("Jazz---Bop", Some(Genre(Jazz, "Bebop"))),
    ("Jazz---Hard Bop", Some(Genre(Jazz, "Bebop"))),
    ("Jazz---Post Bop", Some(Genre(Jazz, "Bebop"))),
    ("Jazz---Cool Jazz", Some(Genre(Jazz, "Cool Jazz"))),
    ("Jazz---Modal", Some(Genre(Jazz, "Cool Jazz"))),
    ("Jazz---Free Jazz", Some(Genre(Jazz, "Free Jazz"))),
    ("Jazz---Free Improvisation", Some(Genre(Jazz, "Free Jazz"))),
    ("Jazz---Avant-garde Jazz", Some(Genre(Jazz, "Free Jazz"))),
    ("Jazz---Fusion", Some(Genre(Jazz, "Fusion"))),
    ("Jazz---Jazz-Funk", Some(Genre(Jazz, "Fusion"))),
    ("Jazz---Jazz-Rock", Some(Genre(Jazz, "Fusion"))),
    ("Jazz---Latin Jazz", Some(Genre(Jazz, "Latin Jazz"))),
    ("Jazz---Afro-Cuban Jazz", Some(Genre(Jazz, "Latin Jazz")))
  ]
  // Jazz (continued)
  const DiscogsJazz2: seq<(string, Option<Genre>)> := [
    ("Jazz---Swing", Some(Genre(Jazz, "Swing"))),
    ("Jazz---Big Band", Some(Genre(Jazz, "Swing"))),
    ("Jazz---Dixieland", Some(Genre(Jazz, "Swing"))),
    ("Jazz---Smooth Jazz", Some(Genre(Jazz, "Cool Jazz"))),
    ("Jazz---Soul-Jazz", Some(Genre(Jazz, "Fusion"))),
    ("Jazz---Contemporary Jazz", Some(Genre(Jazz, "Cool Jazz"))),
    ("Jazz---Bossa Nova", Some(Genre(Jazz, "Latin Jazz"))),
    ("Jazz---Gypsy Jazz", Some(Genre(Jazz, "Swing"))),
    ("Jazz---Ragtime", Some(Genre(Jazz, "Swing"))),
    ("Jazz---Afrobeat", Some(Genre(Jazz, "Fusion"))),
    ("Jazz---Space-Age", Some(Genre(Jazz, "Cool Jazz"))),
    ("Jazz---Easy Listening", Some(Genre(Jazz, "Cool Jazz")))
  ]
  // Classical
  const DiscogsClassical: seq<(string, Option<Genre>)> := [
    ("Classical---Baroque", Some(Genre(Classical, "Orchestral"))),
    ("Classical---Classical", Some(Genre(Classical, "Orchestral"))),
    ("Classical---Romantic", Some(Genre(Classical, "Orchestral"))),
    ("Classical---Impressionist", Some(Genre(Classical, "Orchestral"))),
    ("Classical---Modern", Some(Genre(Classical, "Modern/Contemporary"))),
    ("Classical---Contemporary", Some(Genre(Classical, "Modern/Contemporary"))),
    ("Classical---Post-Modern", Some(Genre(Classical, "Modern/Contemporary"))),
    ("Classical---Neo-Classical", Some(Genre(Classical, "Modern/Contemporary"))),
    ("Classical---Neo-Romantic", Some(Genre(Classical, "Orchestral"))),
    ("Classical---Medieval", Some(Genre(Classical, "Chamber"))),
    ("Classical---Renaissance", Some(Genre(Classical, "Chamber"))),
    ("Classical---Choral", Some(Genre(Classical, "Chamber"))),
    ("Classical---Opera", Some(Genre(Classical, "Opera")))
  ]
  // Blues
  const DiscogsBlues: seq<(string, Option<Genre>)> := [
    ("Blues---Chicago Blues", Some(Genre(BluesSoul, "Blues"))),
    ("Blues---Delta Blues", Some(Genre(BluesSoul, "Blues"))),
    ("Blues---Electric Blues", Some(Genre(BluesSoul, "Blues"))),
    ("Blues---Country Blues", Some(Genre(BluesSoul, "Blues"))),
    ("Blues---Texas Blues", Some(Genre(BluesSoul, "Blues"))),
    ("Blues---Modern Electric Blues", Some(Genre(BluesSoul, "Blues"))),
    ("Blues---Piano Blues", Some(Genre(BluesSoul, "Blues"))),
    ("Blues---Jump Blues", Some(Genre(BluesSoul, "Blues"))),
    ("Blues---Harmonica Blues", Some(Genre(BluesSoul, "Blues"))),
    ("Blues---Louisiana Blues", Some(Genre(BluesSoul, "Blues"))),
    ("Blues---Boogie Woogie", Some(Genre(BluesSoul, "Blues"))),
    ("Blues---Rhythm & Blues", Some(Genre(BluesSoul, "R&B")))
  ]
  // Funk / Soul
  const DiscogsFunkSoul1: seq<(string, Option<Genre>)> := [
    ("Funk / Soul---Funk", Some(Genre(BluesSoul, "Funk"))),
    ("Funk / Soul---Soul", Some(Genre(BluesSoul, "Soul"))),
    ("Funk / Soul---Rhythm & Blues", Some(Genre(BluesSoul, "R&B"))),
    ("Funk / Soul---Contemporary R&B", Some(Genre(BluesSoul, "R&B"))),
    ("Funk / Soul---Disco", Some(Genre(BluesSoul, "Funk"))),
    ("Funk / Soul---Boogie", Some(Genre(BluesSoul, "Funk"))),
    ("Funk / Soul---P.Funk", Some(Genre(BluesSoul, "Funk"))),
    ("Funk / Soul---Free Funk", Some(Genre(BluesSoul, "Funk")))
  ]
  // Funk / Soul (continued)
  const DiscogsFunkSoul2: seq<(string, Option<Genre>)> := [
    ("Funk / Soul---Neo Soul", Some(Genre(BluesSoul, "Soul"))),
    ("Funk / Soul---Psychedelic", Some(Genre(BluesSoul, "Funk"))),
    ("Funk / Soul---Gospel", Some(Genre(BluesSoul, "Soul"))),
    ("Funk / Soul---Afrobeat", Some(Genre(BluesSoul, "Funk"))),
    ("Funk / Soul---New Jack Swing", Some(Genre(BluesSoul, "R&B"))),
    ("Funk / Soul---Swingbeat", Some(Genre(BluesSoul, "R&B"))),
    ("Funk / Soul---UK Street Soul", Some(Genre(BluesSoul, "Soul")))
  ]
  // Reggae
  const DiscogsReggae: seq<(string, Option<Genre>)> := [
    ("Reggae---Dub", Some(Genre(DubReggae, "Dub"))),
    ("Reggae---Reggae", Some(Genre(DubReggae, "Reggae"))),
    ("Reggae---Roots Reggae", Some(Genre(DubReggae, "Reggae"))),
    ("Reggae---Dancehall", Some(Genre(DubReggae, "Reggae"))),
    ("Reggae---Ska", Some(Genre(DubReggae, "Reggae"))),
    ("Reggae---Rocksteady", Some(Genre(DubReggae, "Reggae"))),
    ("Reggae---Lovers Rock", Some(Genre(DubReggae, "Reggae"))),
    ("Reggae---Ragga", Some(Genre(DubReggae, "Reggae"))),
    ("Reggae---Reggae-Pop", Some(Genre(DubReggae, "Reggae"))),
    ("Reggae---Calypso", Some(Genre(DubReggae, "Reggae"))),
    ("Reggae---Soca", Some(Genre(DubReggae, "Reggae")))
  ]
  // Pop
  const DiscogsPop: seq<(string, Option<Genre>)> := [
    ("Pop---Ballad", Some(Genre(PopRock, "Pop"))),
    ("Pop---Indie Pop", Some(Genre(PopRock, "Indie"))),
    ("Pop---Vocal", Some(Genre(PopRock, "Pop"))),
    ("Pop---Europop", Some(Genre(PopRock, "Pop"))),
    ("Pop---Chanson", Some(Genre(PopRock, "Pop"))),
    ("Pop---City Pop", Some(Genre(PopRock, "Pop"))),
    ("Pop---J-pop", Some(Genre(PopRock, "Pop"))),
    ("Pop---K-pop", Some(Genre(PopRock, "Pop"))),
    ("Pop---Schlager", Some(Genre(PopRock, "Pop"))),
    ("Pop---Bubblegum", Some(Genre(PopRock, "Pop"))),
    ("Pop---Light Music", Some(Genre(PopRock, "Pop"))),
    ("Pop---Novelty", Some(Genre(PopRock, "Pop"))),
    ("Pop---Bollywood", Some(Genre(PopRock, "Pop")))
  ]
  // Folk / Country
  const DiscogsFolkCountry: seq<(string, Option<Genre>)> := [
    ("Folk, World, & Country---Folk", Some(Genre(PopRock, "Folk"))),
    ("Folk, World, & Country---Country", Some(Genre(PopRock, "Country"))),
    ("Folk, World, & Country---Bluegrass", Some(Genre(PopRock, "Country"))),
    ("Folk, World, & Country---Celtic", Some(Genre(PopRock, "Folk"))),
    ("Folk, World, & Country---Gospel", Some(Genre(BluesSoul, "Soul"))),
    ("Folk, World, & Country---Honky Tonk", Some(Genre(PopRock, "Country"))),
    ("Folk, World, & Country---Hillbilly", Some(Genre(PopRock, "Country"))),
    ("Folk, World, & Country---Nordic", Some(Genre(PopRock, "Folk"))),
    ("Folk, World, & Country---African", Some(Genre(BluesSoul, "Funk"))),
    ("Folk, World, & Country---Highlife", Some(Genre(BluesSoul, "Funk"))),
    ("Folk, World, & Country---Fado", Some(Genre(PopRock, "Folk"))),
    ("Folk, World, & Country---Flamenco", Some(Genre(PopRock, "Folk")))
  ]
  // Latin -> various
  const DiscogsLatin: seq<(string, Option<Genre>)> := [
    ("Latin---Bossanova", Some(Genre(Jazz, "Latin Jazz"))),
    ("Latin---Salsa", Some(Genre(Jazz, "Latin Jazz"))),
    ("Latin---Afro-Cuban", Some(Genre(Jazz, "Latin Jazz"))),
    ("Latin---Cumbia", Some(Genre(PopRock, "Folk"))),
    ("Latin---Tango", Some(Genre(PopRock, "Folk"))),
    ("Latin---Reggaeton", Some(Genre(HipHop, "Hip-Hop"))),
    ("Latin---Samba", Some(Genre(Jazz, "Latin Jazz")))
  ]
  // Non-Music
  const DiscogsNonMusic: seq<(string, Option<Genre>)> := [
    ("Non-Music---Spoken Word", None),
    ("Non-Music---Comedy", None),
    ("Non-Music---Audiobook", None),
    ("Non-Music---Dialogue", None),
    ("Non-Music---Interview", None),
    ("Non-Music---Field Recording", None),
    ("Non-Music---Poetry", None),
    ("Non-Music---Radioplay", None),
    ("Non-Music---Promotional", None),
    ("Non-Music---Education", None),
    ("Non-Music---Monolog", None),
    ("Non-Music---Political", None),
    ("Non-Music---Religious", None)
  ]
  // Stage & Screen
  const DiscogsStageScreen: seq<(string, Option<Genre>)> := [
    ("Stage & Screen---Soundtrack", Some(Genre(Classical, "Orchestral"))),
    ("Stage & Screen---Score", Some(Genre(Classical, "Orchestral"))),
    ("Stage & Screen---Musical", Some(Genre(PopRock, "Pop"))),
    ("Stage & Screen---Theme", Some(Genre(PopRock, "Pop")))
  ]
  // Brass & Military
  const DiscogsBrassMilitary: seq<(string, Option<Genre>)> := [
    ("Brass & Military---Brass Band", Some(Genre(Jazz, "Swing"))),
    ("Brass & Military---Marches", Some(Genre(Classical, "Orchestral"))),
    ("Brass & Military---Military", Some(Genre(Classical, "Orchestral")))
  ]

  // ---------------------------------------------------------------- table validity

  lemma TagDubstepVariantsWellFormed()
    ensures WellFormedTable(TagDubstepVariants)
  {
  }

  lemma TagDubstepCombosWellFormed()
    ensures WellFormedTable(TagDubstepCombos)
  {
  }

  lemma TagGarageWellFormed()
    ensures WellFormedTable(TagGarage)
  {
  }

  lemma TagBassWellFormed()
    ensures WellFormedTable(TagBass)
  {
  }

  lemma TagDrumAndBassWellFormed()
    ensures WellFormedTable(TagDrumAndBass)
  {
  }

  lemma TagElectronicWellFormed()
    ensures WellFormedTable(TagElectronic)
  {
  }

  lemma TagChillWellFormed()
    ensures WellFormedTable(TagChill)
  {
  }

  lemma TagGlitchHopWellFormed()
    ensures WellFormedTable(TagGlitchHop)
  {
  }

  lemma TagTranceWellFormed()
    ensures WellFormedTable(TagTrance)
  {
  }

  lemma TagHipHopWellFormed()
    ensures WellFormedTable(TagHipHop)
  {
  }

  lemma TagDubReggaeWellFormed()
    ensures WellFormedTable(TagDubReggae)
  {
  }

  lemma TagBluesWellFormed()
    ensures WellFormedTable(TagBlues)
  {
  }

  lemma TagPopRockWellFormed()
    ensures WellFormedTable(TagPopRock)
  {
  }

  lemma TagDafuqMiscWellFormed()
    ensures WellFormedTable(TagDafuqMisc)
  {
  }

  lemma TagCatchAllWellFormed()
    ensures WellFormedTable(TagCatchAll)
  {
  }

  lemma DiscogsElectronicToBassWellFormed()
    ensures WellFormedTable(DiscogsElectronicToBass)
  {
  }

  lemma DiscogsElectronicToElectronic1WellFormed()
    ensures WellFormedTable(DiscogsElectronicToElectronic1)
  {
  }

  lemma DiscogsElectronicToElectronic2WellFormed()
    ensures WellFormedTable(DiscogsElectronicToElectronic2)
  {
  }

  lemma DiscogsElectronicToChillWellFormed()
    ensures WellFormedTable(DiscogsElectronicToChill)
  {
  }

  lemma DiscogsElectronicMisc1WellFormed()
    ensures WellFormedTable(DiscogsElectronicMisc1)
  {
  }

  lemma DiscogsElectronicMisc2WellFormed()
    ensures WellFormedTable(DiscogsElectronicMisc2)
  {
  }

  lemma DiscogsHipHop1WellFormed()
    ensures WellFormedTable(DiscogsHipHop1)
  {
  }

  lemma DiscogsHipHop2WellFormed()
    ensures WellFormedTable(DiscogsHipHop2)
  {
  }

  lemma DiscogsRockVarious1WellFormed()
    ensures WellFormedTable(DiscogsRockVarious1)
  {
  }

  lemma DiscogsRockVarious2WellFormed()
    ensures WellFormedTable(DiscogsRockVarious2)
  {
  }

  lemma DiscogsRockVarious3WellFormed()
    ensures WellFormedTable(DiscogsRockVarious3)
  {
  }

  lemma DiscogsRockToMetal1WellFormed()
    ensures WellFormedTable(DiscogsRockToMetal1)
  {
  }

  lemma DiscogsRockToMetal2WellFormed()
    ensures WellFormedTable(DiscogsRockToMetal2)
  {
  }

  lemma DiscogsRockToPunk1WellFormed()
    ensures WellFormedTable(DiscogsRockToPunk1)
  {
  }

  lemma DiscogsRockToPunk2WellFormed()
    ensures WellFormedTable(DiscogsRockToPunk2)
  {
  }

  lemma DiscogsJazz1WellFormed()
    ensures WellFormedTable(DiscogsJazz1)
  {
  }

  lemma DiscogsJazz2WellFormed()
    ensures WellFormedTable(DiscogsJazz2)
  {
  }

  lemma DiscogsClassicalWellFormed()
    ensures WellFormedTable(DiscogsClassical)
  {
  }

  lemma DiscogsBluesWellFormed()
    ensures WellFormedTable(DiscogsBlues)
  {
  }

  lemma DiscogsFunkSoul1WellFormed()
    ensures WellFormedTable(DiscogsFunkSoul1)
  {
  }

  lemma DiscogsFunkSoul2WellFormed()
    ensures WellFormedTable(DiscogsFunkSoul2)
  {
  }

  lemma DiscogsReggaeWellFormed()
    ensures WellFormedTable(DiscogsReggae)
  {
  }

  lemma DiscogsPopWellFormed()
    ensures WellFormedTable(DiscogsPop)
  {
  }

  lemma DiscogsFolkCountryWellFormed()
    ensures WellFormedTable(DiscogsFolkCountry)
  {
  }

  lemma DiscogsLatinWellFormed()
    ensures WellFormedTable(DiscogsLatin)
  {
  }

  lemma DiscogsNonMusicWellFormed()
    ensures WellFormedTable(DiscogsNonMusic)
  {
  }

  lemma DiscogsStageScreenWellFormed()
    ensures WellFormedTable(DiscogsStageScreen)
  {
  }

  lemma DiscogsBrassMilitaryWellFormed()
    ensures WellFormedTable(DiscogsBrassMilitary)
  {
  }

  lemma TagPrefix1WellFormed()
    ensures WellFormedTable(TagDubstepVariants + TagDubstepCombos + TagGarage + TagBass + TagDrumAndBass + TagElectronic + TagChill)
  {
    TagDubstepVariantsWellFormed();
    TagDubstepCombosWellFormed();
    WellFormedAppend(TagDubstepVariants, TagDubstepCombos);
    TagGarageWellFormed();
    WellFormedAppend(TagDubstepVariants + TagDubstepCombos, TagGarage);
    TagBassWellFormed();
    WellFormedAppend(TagDubstepVariants + TagDubstepCombos + TagGarage, TagBass);
    TagDrumAndBassWellFormed();
    WellFormedAppend(TagDubstepVariants + TagDubstepCombos + TagGarage + TagBass, TagDrumAndBass);
    TagElectronicWellFormed();
    WellFormedAppend(TagDubstepVariants + TagDubstepCombos + TagGarage + TagBass + TagDrumAndBass, TagElectronic);
    TagChillWellFormed();
    WellFormedAppend(TagDubstepVariants + TagDubstepCombos + TagGarage + TagBass + TagDrumAndBass + TagElectronic, TagChill);
  }

  lemma TagPrefix2WellFormed()
    ensures WellFormedTable(TagDubstepVariants + TagDubstepCombos + TagGarage + TagBass + TagDrumAndBass + TagElectronic + TagChill + TagGlitchHop + TagTrance + TagHipHop + TagDubReggae + TagBlues + TagPopRock + TagDafuqMisc)
  {
    TagPrefix1WellFormed();
    TagGlitchHopWellFormed();
    WellFormedAppend(TagDubstepVariants + TagDubstepCombos + TagGarage + TagBass + TagDrumAndBass + TagElectronic + TagChill, TagGlitchHop);
    TagTranceWellFormed();
    WellFormedAppend(TagDubstepVariants + TagDubstepCombos + TagGarage + TagBass + TagDrumAndBass + TagElectronic + TagChill + TagGlitchHop, TagTrance);
    TagHipHopWellFormed();
    WellFormedAppend(TagDubstepVariants + TagDubstepCombos + TagGarage + TagBass + TagDrumAndBass + TagElectronic + TagChill + TagGlitchHop + TagTrance, TagHipHop);
    TagDubReggaeWellFormed();
    WellFormedAppend(TagDubstepVariants + TagDubstepCombos + TagGarage + TagBass + TagDrumAndBass + TagElectronic + TagChill + TagGlitchHop + TagTrance + TagHipHop, TagDubReggae);
    TagBluesWellFormed();
    WellFormedAppend(TagDubstepVariants + TagDubstepCombos + TagGarage + TagBass + TagDrumAndBass + TagElectronic + TagChill + TagGlitchHop + TagTrance + TagHipHop + TagDubReggae, TagBlues);
    TagPopRockWellFormed();
    WellFormedAppend(TagDubstepVariants + TagDubstepCombos + TagGarage + TagBass + TagDrumAndBass + TagElectronic + TagChill + TagGlitchHop + TagTrance + TagHipHop + TagDubReggae + TagBlues, TagPopRock);
    TagDafuqMiscWellFormed();
    WellFormedAppend(TagDubstepVariants + TagDubstepCombos + TagGarage + TagBass + TagDrumAndBass + TagElectronic + TagChill + TagGlitchHop + TagTrance + TagHipHop + TagDubReggae + TagBlues + TagPopRock, TagDafuqMisc);
  }

  lemma DiscogsPrefix1WellFormed()
    ensures WellFormedTable(DiscogsElectronicToBass + DiscogsElectronicToElectronic1 + DiscogsElectronicToElectronic2 + DiscogsElectronicToChill + DiscogsElectronicMisc1 + DiscogsElectronicMisc2 + DiscogsHipHop1)
  {
    DiscogsElectronicToBassWellFormed();
    DiscogsElectronicToElectronic1WellFormed();
    WellFormedAppend(DiscogsElectronicToBass, DiscogsElectronicToElectronic1);
    DiscogsElectronicToElectronic2WellFormed();
    WellFormedAppend(DiscogsElectronicToBass + DiscogsElectronicToElectronic1, DiscogsElectronicToElectronic2);
    DiscogsElectronicToChillWellFormed();
    WellFormedAppend(DiscogsElectronicToBass + DiscogsElectronicToElectronic1 + DiscogsElectronicToElectronic2, DiscogsElectronicToChill);
    DiscogsElectronicMisc1WellFormed();
    WellFormedAppend(DiscogsElectronicToBass + DiscogsElectronicToElectronic1 + DiscogsElectronicToElectronic2 + DiscogsElectronicToChill, DiscogsElectronicMisc1);
    DiscogsElectronicMisc2WellFormed();
    WellFormedAppend(DiscogsElectronicToBass + DiscogsElectronicToElectronic1 + DiscogsElectronicToElectronic2 + DiscogsElectronicToChill + DiscogsElectronicMisc1, DiscogsElectronicMisc2);
    DiscogsHipHop1WellFormed();
    WellFormedAppend(DiscogsElectronicToBass + DiscogsElectronicToElectronic1 + DiscogsElectronicToElectronic2 + DiscogsElectronicToChill + DiscogsElectronicMisc1 + DiscogsElectronicMisc2, DiscogsHipHop1);
  }

  lemma DiscogsPrefix2WellFormed()
    ensures WellFormedTable(DiscogsElectronicToBass + DiscogsElectronicToElectronic1 + DiscogsElectronicToElectronic2 + DiscogsElectronicToChill + DiscogsElectronicMisc1 + DiscogsElectronicMisc2 + DiscogsHipHop1 + DiscogsHipHop2 + DiscogsRockVarious1 + DiscogsRockVarious2 + DiscogsRockVarious3 + DiscogsRockToMetal1 + DiscogsRockToMetal2 + DiscogsRockToPunk1)
  {
    DiscogsPrefix1WellFormed();
    DiscogsHipHop2WellFormed();
    WellFormedAppend(DiscogsElectronicToBass + DiscogsElectronicToElectronic1 + DiscogsElectronicToElectronic2 + DiscogsElectronicToChill + DiscogsElectronicMisc1 + DiscogsElectronicMisc2 + DiscogsHipHop1, DiscogsHipHop2);
    DiscogsRockVarious1WellFormed();
    WellFormedAppend(DiscogsElectronicToBass + DiscogsElectronicToElectronic1 + DiscogsElectronicToElectronic2 + DiscogsElectronicToChill + DiscogsElectronicMisc1 + DiscogsElectronicMisc2 + DiscogsHipHop1 + DiscogsHipHop2, DiscogsRockVarious1);
    DiscogsRockVarious2WellFormed();
    WellFormedAppend(DiscogsElectronicToBass + DiscogsElectronicToElectronic1 + DiscogsElectronicToElectronic2 + DiscogsElectronicToChill + DiscogsElectronicMisc1 + DiscogsElectronicMisc2 + DiscogsHipHop1 + DiscogsHipHop2 + DiscogsRockVarious1, DiscogsRockVarious2);
    DiscogsRockVarious3WellFormed();
    WellFormedAppend(DiscogsElectronicToBass + DiscogsElectronicToElectronic1 + DiscogsElectronicToElectronic2 + DiscogsElectronicToChill + DiscogsElectronicMisc1 + DiscogsElectronicMisc2 + DiscogsHipHop1 + DiscogsHipHop2 + DiscogsRockVarious1 + DiscogsRockVarious2, DiscogsRockVarious3);
    DiscogsRockToMetal1WellFormed();
    WellFormedAppend(DiscogsElectronicToBass + DiscogsElectronicToElectronic1 + DiscogsElectronicToElectronic2 + DiscogsElectronicToChill + DiscogsElectronicMisc1 + DiscogsElectronicMisc2 + DiscogsHipHop1 + DiscogsHipHop2 + DiscogsRockVarious1 + DiscogsRockVarious2 + DiscogsRockVarious3, DiscogsRockToMetal1);
    DiscogsRockToMetal2WellFormed();
    WellFormedAppend(DiscogsElectronicToBass + DiscogsElectronicToElectronic1 + DiscogsElectronicToElectronic2 + DiscogsElectronicToChill + DiscogsElectronicMisc1 + DiscogsElectronicMisc2 + DiscogsHipHop1 + DiscogsHipHop2 + DiscogsRockVarious1 + DiscogsRockVarious2 + DiscogsRockVarious3 + DiscogsRockToMetal1, DiscogsRockToMetal2);
    DiscogsRockToPunk1WellFormed();
    WellFormedAppend(DiscogsElectronicToBass + DiscogsElectronicToElectronic1 + DiscogsElectronicToElectronic2 + DiscogsElectronicToChill + DiscogsElectronicMisc1 + DiscogsElectronicMisc2 + DiscogsHipHop1 + DiscogsHipHop2 + DiscogsRockVarious1 + DiscogsRockVarious2 + DiscogsRockVarious3 + DiscogsRockToMetal1 + DiscogsRockToMetal2, DiscogsRockToPunk1);
  }

  lemma DiscogsPrefix3WellFormed()
    ensures WellFormedTable(DiscogsElectronicToBass + DiscogsElectronicToElectronic1 + DiscogsElectronicToElectronic2 + DiscogsElectronicToChill + DiscogsElectronicMisc1 + DiscogsElectronicMisc2 + DiscogsHipHop1 + DiscogsHipHop2 + DiscogsRockVarious1 + DiscogsRockVarious2 + DiscogsRockVarious3 + DiscogsRockToMetal1 + DiscogsRockToMetal2 + DiscogsRockToPunk1 + DiscogsRockToPunk2 + DiscogsJazz1 + DiscogsJazz2 + DiscogsClassical + DiscogsBlues + DiscogsFunkSoul1 + DiscogsFunkSoul2)
  {
    DiscogsPrefix2WellFormed();
    DiscogsRockToPunk2WellFormed();
    WellFormedAppend(DiscogsElectronicToBass + DiscogsElectronicToElectronic1 + DiscogsElectronicToElectronic2 + DiscogsElectronicToChill + DiscogsElectronicMisc1 + DiscogsElectronicMisc2 + DiscogsHipHop1 + DiscogsHipHop2 + DiscogsRockVarious1 + DiscogsRockVarious2 + DiscogsRockVarious3 + DiscogsRockToMetal1 + DiscogsRockToMetal2 + DiscogsRockToPunk1, DiscogsRockToPunk2);
    DiscogsJazz1WellFormed();
    WellFormedAppend(DiscogsElectronicToBass + DiscogsElectronicToElectronic1 + DiscogsElectronicToElectronic2 + DiscogsElectronicToChill + DiscogsElectronicMisc1 + DiscogsElectronicMisc2 + DiscogsHipHop1 + DiscogsHipHop2 + DiscogsRockVarious1 + DiscogsRockVarious2 + DiscogsRockVarious3 + DiscogsRockToMetal1 + DiscogsRockToMetal2 + DiscogsRockToPunk1 + DiscogsRockToPunk2, DiscogsJazz1);
    DiscogsJazz2WellFormed();
    WellFormedAppend(DiscogsElectronicToBass + DiscogsElectronicToElectronic1 + DiscogsElectronicToElectronic2 + DiscogsElectronicToChill + DiscogsElectronicMisc1 + DiscogsElectronicMisc2 + DiscogsHipHop1 + DiscogsHipHop2 + DiscogsRockVarious1 + DiscogsRockVarious2 + DiscogsRockVarious3 + DiscogsRockToMetal1 + DiscogsRockToMetal2 + DiscogsRockToPunk1 + DiscogsRockToPunk2 + DiscogsJazz1, DiscogsJazz2);
    DiscogsClassicalWellFormed();
    WellFormedAppend(DiscogsElectronicToBass + DiscogsElectronicToElectronic1 + DiscogsElectronicToElectronic2 + DiscogsElectronicToChill + DiscogsElectronicMisc1 + DiscogsElectronicMisc2 + DiscogsHipHop1 + DiscogsHipHop2 + DiscogsRockVarious1 + DiscogsRockVarious2 + DiscogsRockVarious3 + DiscogsRockToMetal1 + DiscogsRockToMetal2 + DiscogsRockToPunk1 + DiscogsRockToPunk2 + DiscogsJazz1 + DiscogsJazz2, DiscogsClassical);
    DiscogsBluesWellFormed();
    WellFormedAppend(DiscogsElectronicToBass + DiscogsElectronicToElectronic1 + DiscogsElectronicToElectronic2 + DiscogsElectronicToChill + DiscogsElectronicMisc1 + DiscogsElectronicMisc2 + DiscogsHipHop1 + DiscogsHipHop2 + DiscogsRockVarious1 + DiscogsRockVarious2 + DiscogsRockVarious3 + DiscogsRockToMetal1 + DiscogsRockToMetal2 + DiscogsRockToPunk1 + DiscogsRockToPunk2 + DiscogsJazz1 + DiscogsJazz2 + DiscogsClassical, DiscogsBlues);
    DiscogsFunkSoul1WellFormed();
    WellFormedAppend(DiscogsElectronicToBass + DiscogsElectronicToElectronic1 + DiscogsElectronicToElectronic2 + DiscogsElectronicToChill + DiscogsElectronicMisc1 + DiscogsElectronicMisc2 + DiscogsHipHop1 + DiscogsHipHop2 + DiscogsRockVarious1 + DiscogsRockVarious2 + DiscogsRockVarious3 + DiscogsRockToMetal1 + DiscogsRockToMetal2 + DiscogsRockToPunk1 + DiscogsRockToPunk2 + DiscogsJazz1 + DiscogsJazz2 + DiscogsClassical + DiscogsBlues, DiscogsFunkSoul1);
    DiscogsFunkSoul2WellFormed();
    WellFormedAppend(DiscogsElectronicToBass + DiscogsElectronicToElectronic1 + DiscogsElectronicToElectronic2 + DiscogsElectronicToChill + DiscogsElectronicMisc1 + DiscogsElectronicMisc2 + DiscogsHipHop1 + DiscogsHipHop2 + DiscogsRockVarious1 + DiscogsRockVarious2 + DiscogsRockVarious3 + DiscogsRockToMetal1 + DiscogsRockToMetal2 + DiscogsRockToPunk1 + DiscogsRockToPunk2 + DiscogsJazz1 + DiscogsJazz2 + DiscogsClassical + DiscogsBlues + DiscogsFunkSoul1, DiscogsFunkSoul2);
  }

  /** A table whose targets are all listed pairs. */
  predicate WellFormedTable(t: seq<(string, Option<Genre>)>) {
    forall i | 0 <= i < |t| :: TargetListed(t[i].1)
  }

  lemma WellFormedAppend(a: seq<(string, Option<Genre>)>, b: seq<(string, Option<Genre>)>)
    requires WellFormedTable(a) && WellFormedTable(b)
    ensures WellFormedTable(a + b)
  {
  }

  /** Every target an ID3 tag names is a listed pair. */
  lemma TagTargetsListed()
    ensures WellFormedTable(TagNormalize)
  {
    TagPrefix2WellFormed();
    TagCatchAllWellFormed();
    WellFormedAppend(TagDubstepVariants + TagDubstepCombos + TagGarage + TagBass + TagDrumAndBass + TagElectronic + TagChill + TagGlitchHop + TagTrance + TagHipHop + TagDubReggae + TagBlues + TagPopRock + TagDafuqMisc, TagCatchAll);
  }

  /** Every target a Discogs label names is a listed pair. */
  lemma DiscogsTargetsListed()
    ensures WellFormedTable(DiscogsTable)
  {
    DiscogsPrefix3WellFormed();
    DiscogsReggaeWellFormed();
    WellFormedAppend(DiscogsElectronicToBass + DiscogsElectronicToElectronic1 + DiscogsElectronicToElectronic2 + DiscogsElectronicToChill + DiscogsElectronicMisc1 + DiscogsElectronicMisc2 + DiscogsHipHop1 + DiscogsHipHop2 + DiscogsRockVarious1 + DiscogsRockVarious2 + DiscogsRockVarious3 + DiscogsRockToMetal1 + DiscogsRockToMetal2 + DiscogsRockToPunk1 + DiscogsRockToPunk2 + DiscogsJazz1 + DiscogsJazz2 + DiscogsClassical + DiscogsBlues + DiscogsFunkSoul1 + DiscogsFunkSoul2, DiscogsReggae);
    DiscogsPopWellFormed();
    WellFormedAppend(DiscogsElectronicToBass + DiscogsElectronicToElectronic1 + DiscogsElectronicToElectronic2 + DiscogsElectronicToChill + DiscogsElectronicMisc1 + DiscogsElectronicMisc2 + DiscogsHipHop1 + DiscogsHipHop2 + DiscogsRockVarious1 + DiscogsRockVarious2 + DiscogsRockVarious3 + DiscogsRockToMetal1 + DiscogsRockToMetal2 + DiscogsRockToPunk1 + DiscogsRockToPunk2 + DiscogsJazz1 + DiscogsJazz2 + DiscogsClassical + DiscogsBlues + DiscogsFunkSoul1 + DiscogsFunkSoul2 + DiscogsReggae, DiscogsPop);
    DiscogsFolkCountryWellFormed();
    WellFormedAppend(DiscogsElectronicToBass + DiscogsElectronicToElectronic1 + DiscogsElectronicToElectronic2 + DiscogsElectronicToChill + DiscogsElectronicMisc1 + DiscogsElectronicMisc2 + DiscogsHipHop1 + DiscogsHipHop2 + DiscogsRockVarious1 + DiscogsRockVarious2 + DiscogsRockVarious3 + DiscogsRockToMetal1 + DiscogsRockToMetal2 + DiscogsRockToPunk1 + DiscogsRockToPunk2 + DiscogsJazz1 + DiscogsJazz2 + DiscogsClassical + DiscogsBlues + DiscogsFunkSoul1 + DiscogsFunkSoul2 + DiscogsReggae + DiscogsPop, DiscogsFolkCountry);
    DiscogsLatinWellFormed();
    WellFormedAppend(DiscogsElectronicToBass + DiscogsElectronicToElectronic1 + DiscogsElectronicToElectronic2 + DiscogsElectronicToChill + DiscogsElectronicMisc1 + DiscogsElectronicMisc2 + DiscogsHipHop1 + DiscogsHipHop2 + DiscogsRockVarious1 + DiscogsRockVarious2 + DiscogsRockVarious3 + DiscogsRockToMetal1 + DiscogsRockToMetal2 + DiscogsRockToPunk1 + DiscogsRockToPunk2 + DiscogsJazz1 + DiscogsJazz2 + DiscogsClassical + DiscogsBlues + DiscogsFunkSoul1 + DiscogsFunkSoul2 + DiscogsReggae + DiscogsPop + DiscogsFolkCountry, DiscogsLatin);
    DiscogsNonMusicWellFormed();
    WellFormedAppend(DiscogsElectronicToBass + DiscogsElectronicToElectronic1 + DiscogsElectronicToElectronic2 + DiscogsElectronicToChill + DiscogsElectronicMisc1 + DiscogsElectronicMisc2 + DiscogsHipHop1 + DiscogsHipHop2 + DiscogsRockVarious1 + DiscogsRockVarious2 + DiscogsRockVarious3 + DiscogsRockToMetal1 + DiscogsRockToMetal2 + DiscogsRockToPunk1 + DiscogsRockToPunk2 + DiscogsJazz1 + DiscogsJazz2 + DiscogsClassical + DiscogsBlues + DiscogsFunkSoul1 + DiscogsFunkSoul2 + DiscogsReggae + DiscogsPop + DiscogsFolkCountry + DiscogsLatin, DiscogsNonMusic);
    DiscogsStageScreenWellFormed();
    WellFormedAppend(DiscogsElectronicToBass + DiscogsElectronicToElectronic1 + DiscogsElectronicToElectronic2 + DiscogsElectronicToChill + DiscogsElectronicMisc1 + DiscogsElectronicMisc2 + DiscogsHipHop1 + DiscogsHipHop2 + DiscogsRockVarious1 + DiscogsRockVarious2 + DiscogsRockVarious3 + DiscogsRockToMetal1 + DiscogsRockToMetal2 + DiscogsRockToPunk1 + DiscogsRockToPunk2 + DiscogsJazz1 + DiscogsJazz2 + DiscogsClassical + DiscogsBlues + DiscogsFunkSoul1 + DiscogsFunkSoul2 + DiscogsReggae + DiscogsPop + DiscogsFolkCountry + DiscogsLatin + DiscogsNonMusic, DiscogsStageScreen);
    DiscogsBrassMilitaryWellFormed();
    WellFormedAppend(DiscogsElectronicToBass + DiscogsElectronicToElectronic1 + DiscogsElectronicToElectronic2 + DiscogsElectronicToChill + DiscogsElectronicMisc1 + DiscogsElectronicMisc2 + DiscogsHipHop1 + DiscogsHipHop2 + DiscogsRockVarious1 + DiscogsRockVarious2 + DiscogsRockVarious3 + DiscogsRockToMetal1 + DiscogsRockToMetal2 + DiscogsRockToPunk1 + DiscogsRockToPunk2 + DiscogsJazz1 + DiscogsJazz2 + DiscogsClassical + DiscogsBlues + DiscogsFunkSoul1 + DiscogsFunkSoul2 + DiscogsReggae + DiscogsPop + DiscogsFolkCountry + DiscogsLatin + DiscogsNonMusic + DiscogsStageScreen, DiscogsBrassMilitary);
  }

  /** Every directory hint names a listed pair. */
  lemma HintTargetsListed()
    ensures forall i | 0 <= i < |DirectoryHints| :: Listed(DirectoryHints[i].1)
  {
  }

  // ---------------------------------------------------------------- lookups

  /** Position of the first pair whose key is `k`: Python's dictionary lookup. */
  function FindKey<V>(t: seq<(string, V)>, k: string): (r: Option<nat>)
    ensures r.Some? ==> r.value < |t| && t[r.value].0 == k
    ensures r.Some? ==> forall j | 0 <= j < r.value :: t[j].0 != k
    ensures r.None? <==> forall j | 0 <= j < |t| :: t[j].0 != k
  {
    if t == [] then None
    else if t[0].0 == k then Some(0)
    else
      match FindKey(t[1..], k)
      case None => None
      case Some(i) => Some(i + 1)
  }

  /** Position of the first pair whose key equals `lk` once lower-cased. */
  function FindFolded<V>(t: seq<(string, V)>, lk: string): (r: Option<nat>)
    ensures r.Some? ==> r.value < |t| && Lower(t[r.value].0) == lk
    ensures r.Some? ==> forall j | 0 <= j < r.value :: Lower(t[j].0) != lk
    ensures r.None? <==> forall j | 0 <= j < |t| :: Lower(t[j].0) != lk
  {
    if t == [] then None
    else if Lower(t[0].0) == lk then Some(0)
    else
      match FindFolded(t[1..], lk)
      case None => None
      case Some(i) => Some(i + 1)
  }

  /** An entry of a well-formed table has a listed target. */
  lemma EntryListed(t: seq<(string, Option<Genre>)>, i: nat)
    requires WellFormedTable(t)
    requires i < |t|
    ensures TargetListed(t[i].1)
  {
  }

  /** `t[k]` is absent or `None`: the exact lookup of `normalize_tag` does not decide. */
  predicate ExactMiss(t: seq<(string, Option<Genre>)>, k: string) {
    var i := FindKey(t, k);
    i.None? || t[i.value].1.None?
  }

  /**
   * The lookup of `normalize_tag` in table `t`: the exact key's genre if it has one, otherwise
   * the value of the first key that equals `s` once both are lower-cased.
   */
  function LookupTag(t: seq<(string, Option<Genre>)>, s: string): (r: Option<Genre>)
    requires WellFormedTable(t)
    ensures r.Some? ==> Listed(r.value)
    ensures r.Some? ==> exists i | 0 <= i < |t| :: t[i].1 == r && Lower(t[i].0) == Lower(s)
  {
    var exact := FindKey(t, s);
    if exact.Some? && t[exact.value].1.Some? then
      EntryListed(t, exact.value);
      t[exact.value].1
    else
      match FindFolded(t, Lower(s))
      case None => None
      case Some(j) =>
        EntryListed(t, j);
        t[j].1
  }

  /** An exact key with a genre wins, wherever case-folded matches stand in the table. */
  lemma LookupTagExact(t: seq<(string, Option<Genre>)>, s: string, i: nat)
    requires WellFormedTable(t)
    requires i < |t| && t[i].0 == s && t[i].1.Some?
    requires forall j | 0 <= j < i :: t[j].0 != s
    ensures LookupTag(t, s) == t[i].1
  {
  }

  /**
   * Without an exact hit that has a genre, the first key in table order that matches once
   * lower-cased decides, even when its own value is `None`.
   */
  lemma LookupTagFolded(t: seq<(string, Option<Genre>)>, s: string, j: nat)
    requires WellFormedTable(t)
    requires ExactMiss(t, s)
    requires j < |t| && Lower(t[j].0) == Lower(s)
    requires forall k | 0 <= k < j :: Lower(t[k].0) != Lower(s)
    ensures LookupTag(t, s) == t[j].1
  {
    var f := FindFolded(t, Lower(s));
    assert Lower(t[j].0) == Lower(s);
    assert f.Some? && Lower(t[f.value].0) == Lower(s);
    assert f.value == j;
  }

  /** Neither an exact nor a case-folded hit: no genre, exactly as for a key mapped to `None`. */
  lemma LookupTagMissing(t: seq<(string, Option<Genre>)>, s: string)
    requires WellFormedTable(t)
    requires ExactMiss(t, s)
    requires forall k | 0 <= k < |t| :: Lower(t[k].0) != Lower(s)
    ensures LookupTag(t, s).None?
  {
  }

  /** `normalize_tag`: an absent or empty tag has no genre; otherwise the stripped tag is looked up. */
  function NormalizeTag(raw: Option<string>): (r: Option<Genre>)
    ensures raw.None? || raw.value == [] ==> r.None?
    ensures r.Some? ==> Listed(r.value)
    ensures r.Some? ==> exists i | 0 <= i < |TagNormalize| :: TagNormalize[i].1 == r && Lower(TagNormalize[i].0) == Lower(Strip(raw.value))
  {
    TagTargetsListed();
    if raw.None? || raw.value == [] then None else LookupTag(TagNormalize, Strip(raw.value))
  }

  /** The table's first key, "Dubstep", is an exact hit. */
  lemma NormalizeDubstep()
    ensures NormalizeTag(Some("Dubstep")) == Some(Genre(Bass, "Dubstep"))
  {
    StripKeeps("Dubstep");
    TagTargetsListed();
    LookupTagExact(TagNormalize, "Dubstep", 0);
  }

  // ---------------------------------------------------------------- case variants on the tag table

  /** No key of `t` lower-cases to `w`. */
  predicate FoldMiss(t: seq<(string, Option<Genre>)>, w: string) {
    forall k | 0 <= k < |t| :: Lower(t[k].0) != w
  }

  /** Every key of `t` that lower-cases to `w` maps to `v`. */
  predicate FoldsTo(t: seq<(string, Option<Genre>)>, w: string, v: Option<Genre>) {
    forall k | 0 <= k < |t| && Lower(t[k].0) == w :: t[k].1 == v
  }

  lemma FoldsToAppend(a: seq<(string, Option<Genre>)>, b: seq<(string, Option<Genre>)>, w: string, v: Option<Genre>)
    requires FoldsTo(a, w, v) && FoldsTo(b, w, v)
    ensures FoldsTo(a + b, w, v)
  {
    forall k | 0 <= k < |a + b| && Lower((a + b)[k].0) == w
      ensures (a + b)[k].1 == v
    {
      if k < |a| {
        assert (a + b)[k] == a[k];
      } else {
        assert (a + b)[k] == b[k - |a|];
      }
    }
  }

  /**
   * When every key that matches `s` up to case carries the same value `v`, and at least one
   * does, the lookup answers `v` whatever the order of the table: the exact hit and the first
   * case-folded hit agree.
   */
  lemma LookupTagUniform(t: seq<(string, Option<Genre>)>, s: string, v: Option<Genre>, j: nat)
    requires WellFormedTable(t)
    requires j < |t| && Lower(t[j].0) == Lower(s)
    requires FoldsTo(t, Lower(s), v)
    ensures LookupTag(t, s) == v
  {
    var exact := FindKey(t, s);
    if exact.Some? && t[exact.value].1.Some? {
      assert Lower(t[exact.value].0) == Lower(s);
    } else {
      var f := FindFolded(t, Lower(s));
      assert f.Some?;
      assert Lower(t[f.value].0) == Lower(s);
    }
  }

  /** The words whose case variants are pinned down on the tag table. */
  predicate PinnedWord(w: string, v: Option<Genre>) {
    (w == "dubstep" && v == Some(Genre(Bass, "Dubstep"))) || ((w == "other" || w == "kulemina") && v.None?)
  }

  lemma TagDubstepVariantsFolds(w: string, v: Option<Genre>)
    requires PinnedWord(w, v)
    ensures FoldsTo(TagDubstepVariants, w, v)
  {
    forall k | 0 <= k < |TagDubstepVariants| && Lower(TagDubstepVariants[k].0) == w
      ensures TagDubstepVariants[k].1 == v
    {
      assert w[0] == LowerChar(TagDubstepVariants[k].0[0]);
    }
  }

  lemma TagDubstepCombosFolds(w: string, v: Option<Genre>)
    requires PinnedWord(w, v)
    ensures FoldsTo(TagDubstepCombos, w, v)
  {
  }

  lemma TagGarageFolds(w: string, v: Option<Genre>)
    requires PinnedWord(w, v)
    ensures FoldsTo(TagGarage, w, v)
  {
  }

  lemma TagBassFolds(w: string, v: Option<Genre>)
    requires PinnedWord(w, v)
    ensures FoldsTo(TagBass, w, v)
  {
  }

  lemma TagDrumAndBassFolds(w: string, v: Option<Genre>)
    requires PinnedWord(w, v)
    ensures FoldsTo(TagDrumAndBass, w, v)
  {
  }

  lemma TagElectronicFolds(w: string, v: Option<Genre>)
    requires PinnedWord(w, v)
    ensures FoldsTo(TagElectronic, w, v)
  {
    forall k | 0 <= k < |TagElectronic|
      ensures Lower(TagElectronic[k].0) != w
    {
      assert Lower(TagElectronic[k].0)[0] == LowerChar(TagElectronic[k].0[0]);
    }
  }

  lemma TagChillFolds(w: string, v: Option<Genre>)
    requires PinnedWord(w, v)
    ensures FoldsTo(TagChill, w, v)
  {
    forall k | 0 <= k < |TagChill|
      ensures Lower(TagChill[k].0) != w
    {
      assert Lower(TagChill[k].0)[0] == LowerChar(TagChill[k].0[0]);
    }
  }

  lemma TagGlitchHopFolds(w: string, v: Option<Genre>)
    requires PinnedWord(w, v)
    ensures FoldsTo(TagGlitchHop, w, v)
  {
  }

  lemma TagTranceFolds(w: string, v: Option<Genre>)
    requires PinnedWord(w, v)
    ensures FoldsTo(TagTrance, w, v)
  {
  }

  lemma TagHipHopFolds(w: string, v: Option<Genre>)
    requires PinnedWord(w, v)
    ensures FoldsTo(TagHipHop, w, v)
  {
    forall k | 0 <= k < |TagHipHop|
      ensures Lower(TagHipHop[k].0) != w
    {
      assert Lower(TagHipHop[k].0)[0] == LowerChar(TagHipHop[k].0[0]);
    }
  }

  lemma TagDubReggaeFolds(w: string, v: Option<Genre>)
    requires PinnedWord(w, v)
    ensures FoldsTo(TagDubReggae, w, v)
  {
  }

  lemma TagBluesFolds(w: string, v: Option<Genre>)
    requires PinnedWord(w, v)
    ensures FoldsTo(TagBlues, w, v)
  {
    forall k | 0 <= k < |TagBlues|
      ensures Lower(TagBlues[k].0) != w
    {
      assert Lower(TagBlues[k].0)[0] == LowerChar(TagBlues[k].0[0]);
    }
  }

  lemma TagPopRockFolds(w: string, v: Option<Genre>)
    requires PinnedWord(w, v)
    ensures FoldsTo(TagPopRock, w, v)
  {
    forall k | 0 <= k < |TagPopRock|
      ensures Lower(TagPopRock[k].0) != w
    {
      assert Lower(TagPopRock[k].0)[0] == LowerChar(TagPopRock[k].0[0]);
    }
  }

  lemma TagDafuqMiscFolds(w: string, v: Option<Genre>)
    requires PinnedWord(w, v)
    ensures FoldsTo(TagDafuqMisc, w, v)
  {
  }

  lemma TagCatchAllFolds(w: string, v: Option<Genre>)
    requires PinnedWord(w, v)
    ensures FoldsTo(TagCatchAll, w, v)
  {
  }

  lemma TagPrefix1Folds(w: string, v: Option<Genre>)
    requires PinnedWord(w, v)
    ensures FoldsTo(TagDubstepVariants + TagDubstepCombos + TagGarage + TagBass + TagDrumAndBass + TagElectronic + TagChill, w, v)
  {
    TagDubstepVariantsFolds(w, v);
    TagDubstepCombosFolds(w, v);
    FoldsToAppend(TagDubstepVariants, TagDubstepCombos, w, v);
    TagGarageFolds(w, v);
    FoldsToAppend(TagDubstepVariants + TagDubstepCombos, TagGarage, w, v);
    TagBassFolds(w, v);
    FoldsToAppend(TagDubstepVariants + TagDubstepCombos + TagGarage, TagBass, w, v);
    TagDrumAndBassFolds(w, v);
    FoldsToAppend(TagDubstepVariants + TagDubstepCombos + TagGarage + TagBass, TagDrumAndBass, w, v);
    TagElectronicFolds(w, v);
    FoldsToAppend(TagDubstepVariants + TagDubstepCombos + TagGarage + TagBass + TagDrumAndBass, TagElectronic, w, v);
    TagChillFolds(w, v);
    FoldsToAppend(TagDubstepVariants + TagDubstepCombos + TagGarage + TagBass + TagDrumAndBass + TagElectronic, TagChill, w, v);
  }

  lemma TagPrefix2Folds(w: string, v: Option<Genre>)
    requires PinnedWord(w, v)
    ensures FoldsTo(TagDubstepVariants + TagDubstepCombos + TagGarage + TagBass + TagDrumAndBass + TagElectronic + TagChill + TagGlitchHop + TagTrance + TagHipHop + TagDubReggae + TagBlues + TagPopRock + TagDafuqMisc, w, v)
  {
    TagPrefix1Folds(w, v);
    TagGlitchHopFolds(w, v);
    FoldsToAppend(TagDubstepVariants + TagDubstepCombos + TagGarage + TagBass + TagDrumAndBass + TagElectronic + TagChill, TagGlitchHop, w, v);
    TagTranceFolds(w, v);
    FoldsToAppend(TagDubstepVariants + TagDubstepCombos + TagGarage + TagBass + TagDrumAndBass + TagElectronic + TagChill + TagGlitchHop, TagTrance, w, v);
    TagHipHopFolds(w, v);
    FoldsToAppend(TagDubstepVariants + TagDubstepCombos + TagGarage + TagBass + TagDrumAndBass + TagElectronic + TagChill + TagGlitchHop + TagTrance, TagHipHop, w, v);
    TagDubReggaeFolds(w, v);
    FoldsToAppend(TagDubstepVariants + TagDubstepCombos + TagGarage + TagBass + TagDrumAndBass + TagElectronic + TagChill + TagGlitchHop + TagTrance + TagHipHop, TagDubReggae, w, v);
    TagBluesFolds(w, v);
    FoldsToAppend(TagDubstepVariants + TagDubstepCombos + TagGarage + TagBass + TagDrumAndBass + TagElectronic + TagChill + TagGlitchHop + TagTrance + TagHipHop + TagDubReggae, TagBlues, w, v);
    TagPopRockFolds(w, v);
    FoldsToAppend(TagDubstepVariants + TagDubstepCombos + TagGarage + TagBass + TagDrumAndBass + TagElectronic + TagChill + TagGlitchHop + TagTrance + TagHipHop + TagDubReggae + TagBlues, TagPopRock, w, v);
    TagDafuqMiscFolds(w, v);
    FoldsToAppend(TagDubstepVariants + TagDubstepCombos + TagGarage + TagBass + TagDrumAndBass + TagElectronic + TagChill + TagGlitchHop + TagTrance + TagHipHop + TagDubReggae + TagBlues + TagPopRock, TagDafuqMisc, w, v);
  }

  /** On the whole tag table, each case variant of a pinned word maps to the same value. */
  lemma TagNormalizeFolds(w: string, v: Option<Genre>)
    requires PinnedWord(w, v)
    ensures FoldsTo(TagNormalize, w, v)
  {
    TagPrefix2Folds(w, v);
    TagCatchAllFolds(w, v);
    FoldsToAppend(TagDubstepVariants + TagDubstepCombos + TagGarage + TagBass + TagDrumAndBass + TagElectronic + TagChill + TagGlitchHop + TagTrance + TagHipHop + TagDubReggae + TagBlues + TagPopRock + TagDafuqMisc, TagCatchAll, w, v);
  }

  /**
   * Any spelling of "dubstep", in any case and with surrounding white space, normalises to
   * (Bass, Dubstep): the exact keys "Dubstep", "DubStep" and "dubstep" and the case-folded
   * fallback all agree.
   */
  lemma NormalizeDubstepAnyCase(s: string)
    requires Lower(Strip(s)) == "dubstep"
    ensures NormalizeTag(Some(s)) == Some(Genre(Bass, "Dubstep"))
  {
    TagTargetsListed();
    TagNormalizeFolds("dubstep", Some(Genre(Bass, "Dubstep")));
    var low := Lower(TagNormalize[0].0);
    assert low[0] == 'd' && low[1] == 'u' && low[2] == 'b' && low[3] == 's' && low[4] == 't' && low[5] == 'e' && low[6] == 'p';
    LookupTagUniform(TagNormalize, Strip(s), Some(Genre(Bass, "Dubstep")), 0);
  }

  /** The known-but-unmapped tags "Other" and "Kulemina" give no genre, in any case. */
  lemma NormalizeCatchAllAnyCase(s: string)
    requires Lower(Strip(s)) == "other" || Lower(Strip(s)) == "kulemina"
    ensures NormalizeTag(Some(s)).None?
  {
    TagTargetsListed();
    var w := Lower(Strip(s));
    TagNormalizeFolds(w, None);
    CatchAllKeys();
    var n := |TagNormalize|;
    LookupTagUniform(TagNormalize, Strip(s), None, if w == "other" then n - 2 else n - 1);
  }

  /** The tag table ends with the catch-all keys, lowering to "other" and "kulemina". */
  lemma CatchAllKeys()
    ensures |TagNormalize| >= 2
    ensures Lower(TagNormalize[|TagNormalize| - 2].0) == "other"
    ensures Lower(TagNormalize[|TagNormalize| - 1].0) == "kulemina"
  {
    var n := |TagNormalize|;
    assert TagNormalize[n - 2] == ("Other", None) && TagNormalize[n - 1] == ("Kulemina", None);
    var o := Lower(TagNormalize[n - 2].0);
    assert o[0] == 'o' && o[1] == 't' && o[2] == 'h' && o[3] == 'e' && o[4] == 'r';
    var k := Lower(TagNormalize[n - 1].0);
    assert k[0] == 'k' && k[1] == 'u' && k[2] == 'l' && k[3] == 'e' && k[4] == 'm' && k[5] == 'i' && k[6] == 'n' && k[7] == 'a';
  }

  /** "DUBSTEP" has no exact key and falls back to the case-folded ones. */
  lemma NormalizeUpperDubstep()
    ensures NormalizeTag(Some("DUBSTEP")) == Some(Genre(Bass, "Dubstep"))
  {
    StripKeeps("DUBSTEP");
    var d := Lower("DUBSTEP");
    assert d[0] == 'd' && d[1] == 'u' && d[2] == 'b' && d[3] == 's' && d[4] == 't' && d[5] == 'e' && d[6] == 'p';
    NormalizeDubstepAnyCase("DUBSTEP");
  }

  lemma NormalizeLowerDubstep()
    ensures NormalizeTag(Some("dubstep")) == Some(Genre(Bass, "Dubstep"))
  {
    StripKeeps("dubstep");
    LowerKeeps("dubstep");
    NormalizeDubstepAnyCase("dubstep");
  }

  lemma NormalizeOther()
    ensures NormalizeTag(Some("Other")).None?
  {
    StripKeeps("Other");
    var o := Lower("Other");
    assert o[0] == 'o' && o[1] == 't' && o[2] == 'h' && o[3] == 'e' && o[4] == 'r';
    NormalizeCatchAllAnyCase("Other");
  }

  lemma NormalizeKulemina()
    ensures NormalizeTag(Some("Kulemina")).None?
  {
    StripKeeps("Kulemina");
    var k := Lower("Kulemina");
    assert k[0] == 'k' && k[1] == 'u' && k[2] == 'l' && k[3] == 'e' && k[4] == 'm' && k[5] == 'i' && k[6] == 'n' && k[7] == 'a';
    NormalizeCatchAllAnyCase("Kulemina");
  }

  /** Position of the first hint whose lower-cased text occurs in `lpath`. */
  function FirstHint(hints: seq<(string, Genre)>, lpath: string): (r: Option<nat>)
    ensures r.Some? ==> r.value < |hints| && Contains(lpath, Lower(hints[r.value].0))
    ensures r.Some? ==> forall j | 0 <= j < r.value :: !Contains(lpath, Lower(hints[j].0))
    ensures r.None? <==> forall j | 0 <= j < |hints| :: !Contains(lpath, Lower(hints[j].0))
  {
    if hints == [] then None
    else if Contains(lpath, Lower(hints[0].0)) then Some(0)
    else
      match FirstHint(hints[1..], lpath)
      case None => None
      case Some(i) => Some(i + 1)
  }

  /** The hint at `i` is the first, in table order, whose lower-cased text occurs in `lpath`. */
  ghost predicate FirstHintAt(hints: seq<(string, Genre)>, lpath: string, i: int) {
    0 <= i < |hints|
    && Contains(lpath, Lower(hints[i].0))
    && forall j | 0 <= j < i :: !Contains(lpath, Lower(hints[j].0))
  }

  /** The scan of `directory_hint` over a hint table. */
  function HintLookup(hints: seq<(string, Genre)>, dirpath: string): (r: Option<Genre>)
    requires forall i | 0 <= i < |hints| :: Listed(hints[i].1)
    ensures r.Some? ==> Listed(r.value)
    ensures r.Some? ==> exists i :: FirstHintAt(hints, Lower(dirpath), i) && r.value == hints[i].1
    ensures r.None? <==> forall j | 0 <= j < |hints| :: !Contains(Lower(dirpath), Lower(hints[j].0))
  {
    match FirstHint(hints, Lower(dirpath))
    case None => None
    case Some(i) =>
      assert FirstHintAt(hints, Lower(dirpath), i);
      Some(hints[i].1)
  }

  /** `directory_hint`: the genre of the first hint whose lower-cased text occurs in the lower-cased path. */
  function DirectoryHint(dirpath: string): (r: Option<Genre>)
    ensures r.Some? ==> Listed(r.value)
  {
    HintTargetsListed();
    HintLookup(DirectoryHints, dirpath)
  }

  /** A path misses a hint when it lacks some character of the hint's lower-cased text. */
  lemma MissesHint(lpath: string, j: nat, k: nat)
    requires j < |DirectoryHints| && k < |DirectoryHints[j].0|
    requires LowerChar(DirectoryHints[j].0[k]) !in lpath
    ensures !Contains(lpath, Lower(DirectoryHints[j].0))
  {
    if Contains(lpath, Lower(DirectoryHints[j].0)) {
      ContainsHasChars(lpath, Lower(DirectoryHints[j].0), k);
    }
  }

  /**
   * Every hint text has one of '_', ':', 'r', 'a' and 'j' once lower-cased, so a lower-cased
   * path with none of them contains no hint.
   */
  lemma HintsNeedMarkers(lpath: string)
    requires '_' !in lpath && ':' !in lpath && 'r' !in lpath && 'a' !in lpath && 'j' !in lpath
    ensures forall j | 0 <= j < |DirectoryHints| :: !Contains(lpath, Lower(DirectoryHints[j].0))
  {
    forall j | 0 <= j < |DirectoryHints| ensures !Contains(lpath, Lower(DirectoryHints[j].0)) {
      if j == 0 {
        MissesHint(lpath, 0, 7);
      } else if j == 1 {
        MissesHint(lpath, 1, 9);
      } else if j == 2 {
        MissesHint(lpath, 2, 4);
      } else if j == 3 {
        MissesHint(lpath, 3, 0);
      } else {
        MissesHint(lpath, 4, 3);
      }
    }
  }

  /** No hint occurs in "chill/downtempo-mix". */
  lemma DowntempoMixMissesHints()
    ensures forall j | 0 <= j < |DirectoryHints| :: !Contains("chill/downtempo-mix", Lower(DirectoryHints[j].0))
  {
    HintsNeedMarkers("chill/downtempo-mix");
  }

  /** A mix directory named after both of its genres, "chill/downtempo-mix", gets no hint. */
  lemma DowntempoMixHasNoHint()
    ensures DirectoryHint("chill/downtempo-mix").None?
  {
    LowerKeeps("chill/downtempo-mix");
    HintTargetsListed();
    DowntempoMixMissesHints();
  }

  /** Position of the first path component that is a content-type directory. */
  function FirstContentDir(parts: seq<string>): (r: Option<nat>)
    ensures r.Some? ==> r.value < |parts| && parts[r.value] in ContentTypeDirs
    ensures r.Some? ==> forall j | 0 <= j < r.value :: parts[j] !in ContentTypeDirs
    ensures r.None? <==> forall j | 0 <= j < |parts| :: parts[j] !in ContentTypeDirs
  {
    if parts == [] then None
    else if parts[0] in ContentTypeDirs then Some(0)
    else
      match FirstContentDir(parts[1..])
      case None => None
      case Some(i) => Some(i + 1)
  }

  /** The components of a directory path, backslashes read as slashes. */
  function PathParts(dirpath: string): (parts: seq<string>)
    ensures |parts| >= 1
    ensures Join(parts, "/") == ReplaceChar(dirpath, '\\', '/')
    ensures forall i | 0 <= i < |parts| :: '/' !in parts[i] && '\\' !in parts[i]
  {
    var unified := ReplaceChar(dirpath, '\\', '/');
    var parts := Split(unified, '/');
    forall i, k | 0 <= i < |parts| && 0 <= k < |parts[i]| ensures parts[i][k] != '\\' {
      JoinHasPartChars(parts, "/", i, k);
    }
    parts
  }

  /** Component `i` of `parts` is the first that names a content type. */
  predicate FirstContentDirAt(parts: seq<string>, i: int) {
    0 <= i < |parts| && parts[i] in ContentTypeDirs && forall j | 0 <= j < i :: parts[j] !in ContentTypeDirs
  }

  /** The content type of the first component of `parts` that names one. */
  function ContentTypeOfParts(parts: seq<string>): (r: Option<string>)
    ensures r.None? <==> forall i | 0 <= i < |parts| :: parts[i] !in ContentTypeDirs
    ensures r.Some? ==> exists i :: FirstContentDirAt(parts, i) && r.value == ContentTypeDirs[parts[i]]
    ensures r.Some? ==> r.value in ContentTypeDirs.Values && r.value != "song"
  {
    match FirstContentDir(parts)
    case None => None
    case Some(i) =>
      assert FirstContentDirAt(parts, i);
      Some(ContentTypeDirs[parts[i]])
  }

  /** `content_type_from_dir`: the content type of the first path component that names one. */
  function ContentTypeFromDir(dirpath: string): (r: Option<string>)
    ensures r.Some? ==> r.value in ContentTypeDirs.Values && r.value != "song"
  {
    ContentTypeOfParts(PathParts(dirpath))
  }

  /** A component without separators peels off the front of a path, after a slash or a backslash alike. */
  lemma PathPartsCons(top: string, sep: char, rest: string)
    requires sep == '/' || sep == '\\'
    requires '/' !in top && '\\' !in top
    ensures PathParts(top + [sep] + rest) == [top] + PathParts(rest)
  {
    assert ReplaceChar(top + [sep] + rest, '\\', '/') == top + "/" + ReplaceChar(rest, '\\', '/');
    SplitCons(top, ReplaceChar(rest, '\\', '/'), '/');
  }

  /** A path without separators is one component. */
  lemma PathPartsSingle(p: string)
    requires '/' !in p && '\\' !in p
    ensures PathParts(p) == [p]
  {
    assert ReplaceChar(p, '\\', '/') == p;
    SplitWithout(p, '/');
  }

  /** The top directory decides when it names a content type. */
  lemma TopDirDecides(top: string, rest: string)
    requires '/' !in top && '\\' !in top && top in ContentTypeDirs
    ensures ContentTypeFromDir(top + "/" + rest) == Some(ContentTypeDirs[top])
  {
    PathPartsCons(top, '/', rest);
  }

  /** An upper-case "SHOWS" top directory holds talk. */
  lemma ShowsIsTalking(rest: string)
    ensures ContentTypeFromDir("SHOWS" + "/" + rest) == Some("talking")
  {
    TopDirDecides("SHOWS", rest);
  }

  /** Names are compared case-sensitively: a lower-case "shows" directory names nothing. */
  lemma LowerShowsIsNothing(rest: string)
    requires '/' !in rest && '\\' !in rest && rest !in ContentTypeDirs
    ensures ContentTypeFromDir("shows" + "/" + rest).None?
  {
    PathPartsCons("shows", '/', rest);
    PathPartsSingle(rest);
  }

  /** Python's `d.get(k)` on a table whose values may themselves be `None`. */
  function LookupTarget(t: seq<(string, Option<Genre>)>, k: string): (r: Option<Genre>)
    requires WellFormedTable(t)
    ensures r.Some? ==> Listed(r.value)
    ensures r.Some? ==> exists i | 0 <= i < |t| :: t[i] == (k, r)
    ensures (forall i | 0 <= i < |t| :: t[i].0 != k) ==> r.None?
  {
    match FindKey(t, k)
    case None => None
    case Some(i) =>
      EntryListed(t, i);
      assert t[i] == (k, t[i].1);
      t[i].1
  }

  /** The first pair with the key decides, `None` included. */
  lemma LookupTargetFirst(t: seq<(string, Option<Genre>)>, k: string, i: nat)
    requires WellFormedTable(t)
    requires i < |t| && t[i].0 == k
    requires forall j | 0 <= j < i :: t[j].0 != k
    ensures LookupTarget(t, k) == t[i].1
  {
  }

  /** `discogs_to_knob`: the target of a Discogs label; unknown and non-music labels give none. */
  function DiscogsToKnob(discogsLabel: string): (r: Option<Genre>)
    ensures r.Some? ==> Listed(r.value)
  {
    DiscogsTargetsListed();
    LookupTarget(DiscogsTable, discogsLabel)
  }

  // ---------------------------------------------------------------- single Discogs labels

  /** Every key of `t` starts with `c`: each group of the Discogs table shares its broad genre. */
  predicate Initial(t: seq<(string, Option<Genre>)>, c: char) {
    forall j | 0 <= j < |t| :: t[j].0 != [] && t[j].0[0] == c
  }

  /** No key of `t` starts with `c`. */
  predicate InitialMiss(t: seq<(string, Option<Genre>)>, c: char) {
    forall j | 0 <= j < |t| :: t[j].0 == [] || t[j].0[0] != c
  }

  /** Every key of `t` that starts with `c` maps to `v`. */
  predicate InitialMapsTo(t: seq<(string, Option<Genre>)>, c: char, v: Option<Genre>) {
    forall j | 0 <= j < |t| && t[j].0 != [] && t[j].0[0] == c :: t[j].1 == v
  }

  lemma InitialMissAppend(a: seq<(string, Option<Genre>)>, b: seq<(string, Option<Genre>)>, c: char)
    requires InitialMiss(a, c) && InitialMiss(b, c)
    ensures InitialMiss(a + b, c)
  {
    forall j | 0 <= j < |a + b|
      ensures (a + b)[j].0 == [] || (a + b)[j].0[0] != c
    {
      if j < |a| {
        assert (a + b)[j] == a[j];
      } else {
        assert (a + b)[j] == b[j - |a|];
      }
    }
  }

  lemma InitialMapsToAppend(a: seq<(string, Option<Genre>)>, b: seq<(string, Option<Genre>)>, c: char, v: Option<Genre>)
    requires InitialMapsTo(a, c, v) && InitialMapsTo(b, c, v)
    ensures InitialMapsTo(a + b, c, v)
  {
    forall j | 0 <= j < |a + b| && (a + b)[j].0 != [] && (a + b)[j].0[0] == c
      ensures (a + b)[j].1 == v
    {
      if j < |a| {
        assert (a + b)[j] == a[j];
      } else {
        assert (a + b)[j] == b[j - |a|];
      }
    }
  }

  lemma DiscogsElectronicToBassInitial()
    ensures Initial(DiscogsElectronicToBass, 'E')
  {
  }

  lemma DiscogsElectronicToElectronic1Initial()
    ensures Initial(DiscogsElectronicToElectronic1, 'E')
  {
  }

  lemma DiscogsElectronicToElectronic2Initial()
    ensures Initial(DiscogsElectronicToElectronic2, 'E')
  {
  }

  lemma DiscogsElectronicToChillInitial()
    ensures Initial(DiscogsElectronicToChill, 'E')
  {
  }

  lemma DiscogsElectronicMisc1Initial()
    ensures Initial(DiscogsElectronicMisc1, 'E')
  {
  }

  lemma DiscogsElectronicMisc2Initial()
    ensures Initial(DiscogsElectronicMisc2, 'E')
  {
  }

  lemma DiscogsHipHop1Initial()
    ensures Initial(DiscogsHipHop1, 'H')
  {
  }

  lemma DiscogsHipHop2Initial()
    ensures Initial(DiscogsHipHop2, 'H')
  {
  }

  lemma DiscogsRockVarious1Initial()
    ensures Initial(DiscogsRockVarious1, 'R')
  {
  }

  lemma DiscogsRockVarious2Initial()
    ensures Initial(DiscogsRockVarious2, 'R')
  {
  }

  lemma DiscogsRockVarious3Initial()
    ensures Initial(DiscogsRockVarious3, 'R')
  {
  }

  lemma DiscogsRockToMetal1Initial()
    ensures Initial(DiscogsRockToMetal1, 'R')
  {
  }

  lemma DiscogsRockToMetal2Initial()
    ensures Initial(DiscogsRockToMetal2, 'R')
  {
  }

  lemma DiscogsRockToPunk1Initial()
    ensures Initial(DiscogsRockToPunk1, 'R')
  {
  }

  lemma DiscogsRockToPunk2Initial()
    ensures Initial(DiscogsRockToPunk2, 'R')
  {
  }

  lemma DiscogsJazz1Initial()
    ensures Initial(DiscogsJazz1, 'J')
  {
  }

  lemma DiscogsJazz2Initial()
    ensures Initial(DiscogsJazz2, 'J')
  {
  }

  lemma DiscogsClassicalInitial()
    ensures Initial(DiscogsClassical, 'C')
  {
  }

  lemma DiscogsBluesInitial()
    ensures Initial(DiscogsBlues, 'B')
  {
  }

  lemma DiscogsFunkSoul1Initial()
    ensures Initial(DiscogsFunkSoul1, 'F')
  {
  }

  lemma DiscogsFunkSoul2Initial()
    ensures Initial(DiscogsFunkSoul2, 'F')
  {
  }

  lemma DiscogsReggaeInitial()
    ensures Initial(DiscogsReggae, 'R')
  {
  }

  lemma DiscogsPopInitial()
    ensures Initial(DiscogsPop, 'P')
  {
  }

  lemma DiscogsFolkCountryInitial()
    ensures Initial(DiscogsFolkCountry, 'F')
  {
  }

  lemma DiscogsLatinInitial()
    ensures Initial(DiscogsLatin, 'L')
  {
  }

  lemma DiscogsNonMusicInitial()
    ensures Initial(DiscogsNonMusic, 'N')
  {
  }

  lemma DiscogsStageScreenInitial()
    ensures Initial(DiscogsStageScreen, 'S')
  {
  }

  lemma DiscogsBrassMilitaryInitial()
    ensures Initial(DiscogsBrassMilitary, 'B')
  {
  }
  /** No label of the first 7 groups starts with a letter that none of their broad genres starts with. */
  lemma DiscogsPrefix1Miss(c: char)
    requires c != 'B' && c != 'C' && c != 'E' && c != 'F' && c != 'H' && c != 'J' && c != 'L' && c != 'P' && c != 'R'
    ensures InitialMiss(DiscogsElectronicToBass + DiscogsElectronicToElectronic1 + DiscogsElectronicToElectronic2 + DiscogsElectronicToChill + DiscogsElectronicMisc1 + DiscogsElectronicMisc2 + DiscogsHipHop1, c)
  {
    DiscogsElectronicToBassInitial();
    DiscogsElectronicToElectronic1Initial();
    InitialMissAppend(DiscogsElectronicToBass, DiscogsElectronicToElectronic1, c);
    DiscogsElectronicToElectronic2Initial();
    InitialMissAppend(DiscogsElectronicToBass + DiscogsElectronicToElectronic1, DiscogsElectronicToElectronic2, c);
    DiscogsElectronicToChillInitial();
    InitialMissAppend(DiscogsElectronicToBass + DiscogsElectronicToElectronic1 + DiscogsElectronicToElectronic2, DiscogsElectronicToChill, c);
    DiscogsElectronicMisc1Initial();
    InitialMissAppend(DiscogsElectronicToBass + DiscogsElectronicToElectronic1 + DiscogsElectronicToElectronic2 + DiscogsElectronicToChill, DiscogsElectronicMisc1, c);
    DiscogsElectronicMisc2Initial();
    InitialMissAppend(DiscogsElectronicToBass + DiscogsElectronicToElectronic1 + DiscogsElectronicToElectronic2 + DiscogsElectronicToChill + DiscogsElectronicMisc1, DiscogsElectronicMisc2, c);
    DiscogsHipHop1Initial();
    InitialMissAppend(DiscogsElectronicToBass + DiscogsElectronicToElectronic1 + DiscogsElectronicToElectronic2 + DiscogsElectronicToChill + DiscogsElectronicMisc1 + DiscogsElectronicMisc2, DiscogsHipHop1, c);
  }
  /** No label of the first 14 groups starts with a letter that none of their broad genres starts with. */
  lemma DiscogsPrefix2Miss(c: char)
    requires c != 'B' && c != 'C' && c != 'E' && c != 'F' && c != 'H' && c != 'J' && c != 'L' && c != 'P' && c != 'R'
    ensures InitialMiss(DiscogsElectronicToBass + DiscogsElectronicToElectronic1 + DiscogsElectronicToElectronic2 + DiscogsElectronicToChill + DiscogsElectronicMisc1 + DiscogsElectronicMisc2 + DiscogsHipHop1 + DiscogsHipHop2 + DiscogsRockVarious1 + DiscogsRockVarious2 + DiscogsRockVarious3 + DiscogsRockToMetal1 + DiscogsRockToMetal2 + DiscogsRockToPunk1, c)
  {
    DiscogsPrefix1Miss(c);
    DiscogsHipHop2Initial();
    InitialMissAppend(DiscogsElectronicToBass + DiscogsElectronicToElectronic1 + DiscogsElectronicToElectronic2 + DiscogsElectronicToChill + DiscogsElectronicMisc1 + DiscogsElectronicMisc2 + DiscogsHipHop1, DiscogsHipHop2, c);
    DiscogsRockVarious1Initial();
    InitialMissAppend(DiscogsElectronicToBass + DiscogsElectronicToElectronic1 + DiscogsElectronicToElectronic2 + DiscogsElectronicToChill + DiscogsElectronicMisc1 + DiscogsElectronicMisc2 + DiscogsHipHop1 + DiscogsHipHop2, DiscogsRockVarious1, c);
    DiscogsRockVarious2Initial();
    InitialMissAppend(DiscogsElectronicToBass + DiscogsElectronicToElectronic1 + DiscogsElectronicToElectronic2 + DiscogsElectronicToChill + DiscogsElectronicMisc1 + DiscogsElectronicMisc2 + DiscogsHipHop1 + DiscogsHipHop2 + DiscogsRockVarious1, DiscogsRockVarious2, c);
    DiscogsRockVarious3Initial();
    InitialMissAppend(DiscogsElectronicToBass + DiscogsElectronicToElectronic1 + DiscogsElectronicToElectronic2 + DiscogsElectronicToChill + DiscogsElectronicMisc1 + DiscogsElectronicMisc2 + DiscogsHipHop1 + DiscogsHipHop2 + DiscogsRockVarious1 + DiscogsRockVarious2, DiscogsRockVarious3, c);
    DiscogsRockToMetal1Initial();
    InitialMissAppend(DiscogsElectronicToBass + DiscogsElectronicToElectronic1 + DiscogsElectronicToElectronic2 + DiscogsElectronicToChill + DiscogsElectronicMisc1 + DiscogsElectronicMisc2 + DiscogsHipHop1 + DiscogsHipHop2 + DiscogsRockVarious1 + DiscogsRockVarious2 + DiscogsRockVarious3, DiscogsRockToMetal1, c);
    DiscogsRockToMetal2Initial();
    InitialMissAppend(DiscogsElectronicToBass + DiscogsElectronicToElectronic1 + DiscogsElectronicToElectronic2 + DiscogsElectronicToChill + DiscogsElectronicMisc1 + DiscogsElectronicMisc2 + DiscogsHipHop1 + DiscogsHipHop2 + DiscogsRockVarious1 + DiscogsRockVarious2 + DiscogsRockVarious3 + DiscogsRockToMetal1, DiscogsRockToMetal2, c);
    DiscogsRockToPunk1Initial();
    InitialMissAppend(DiscogsElectronicToBass + DiscogsElectronicToElectronic1 + DiscogsElectronicToElectronic2 + DiscogsElectronicToChill + DiscogsElectronicMisc1 + DiscogsElectronicMisc2 + DiscogsHipHop1 + DiscogsHipHop2 + DiscogsRockVarious1 + DiscogsRockVarious2 + DiscogsRockVarious3 + DiscogsRockToMetal1 + DiscogsRockToMetal2, DiscogsRockToPunk1, c);
  }
  /** No label of the first 21 groups starts with a letter that none of their broad genres starts with. */
  lemma DiscogsPrefix3Miss(c: char)
    requires c != 'B' && c != 'C' && c != 'E' && c != 'F' && c != 'H' && c != 'J' && c != 'L' && c != 'P' && c != 'R'
    ensures InitialMiss(DiscogsElectronicToBass + DiscogsElectronicToElectronic1 + DiscogsElectronicToElectronic2 + DiscogsElectronicToChill + DiscogsElectronicMisc1 + DiscogsElectronicMisc2 + DiscogsHipHop1 + DiscogsHipHop2 + DiscogsRockVarious1 + DiscogsRockVarious2 + DiscogsRockVarious3 + DiscogsRockToMetal1 + DiscogsRockToMetal2 + DiscogsRockToPunk1 + DiscogsRockToPunk2 + DiscogsJazz1 + DiscogsJazz2 + DiscogsClassical + DiscogsBlues + DiscogsFunkSoul1 + DiscogsFunkSoul2, c)
  {
    DiscogsPrefix2Miss(c);
    DiscogsRockToPunk2Initial();
    InitialMissAppend(DiscogsElectronicToBass + DiscogsElectronicToElectronic1 + DiscogsElectronicToElectronic2 + DiscogsElectronicToChill + DiscogsElectronicMisc1 + DiscogsElectronicMisc2 + DiscogsHipHop1 + DiscogsHipHop2 + DiscogsRockVarious1 + DiscogsRockVarious2 + DiscogsRockVarious3 + DiscogsRockToMetal1 + DiscogsRockToMetal2 + DiscogsRockToPunk1, DiscogsRockToPunk2, c);
    DiscogsJazz1Initial();
    InitialMissAppend(DiscogsElectronicToBass + DiscogsElectronicToElectronic1 + DiscogsElectronicToElectronic2 + DiscogsElectronicToChill + DiscogsElectronicMisc1 + DiscogsElectronicMisc2 + DiscogsHipHop1 + DiscogsHipHop2 + DiscogsRockVarious1 + DiscogsRockVarious2 + DiscogsRockVarious3 + DiscogsRockToMetal1 + DiscogsRockToMetal2 + DiscogsRockToPunk1 + DiscogsRockToPunk2, DiscogsJazz1, c);
    DiscogsJazz2Initial();
    InitialMissAppend(DiscogsElectronicToBass + DiscogsElectronicToElectronic1 + DiscogsElectronicToElectronic2 + DiscogsElectronicToChill + DiscogsElectronicMisc1 + DiscogsElectronicMisc2 + DiscogsHipHop1 + DiscogsHipHop2 + DiscogsRockVarious1 + DiscogsRockVarious2 + DiscogsRockVarious3 + DiscogsRockToMetal1 + DiscogsRockToMetal2 + DiscogsRockToPunk1 + DiscogsRockToPunk2 + DiscogsJazz1, DiscogsJazz2, c);
    DiscogsClassicalInitial();
    InitialMissAppend(DiscogsElectronicToBass + DiscogsElectronicToElectronic1 + DiscogsElectronicToElectronic2 + DiscogsElectronicToChill + DiscogsElectronicMisc1 + DiscogsElectronicMisc2 + DiscogsHipHop1 + DiscogsHipHop2 + DiscogsRockVarious1 + DiscogsRockVarious2 + DiscogsRockVarious3 + DiscogsRockToMetal1 + DiscogsRockToMetal2 + DiscogsRockToPunk1 + DiscogsRockToPunk2 + DiscogsJazz1 + DiscogsJazz2, DiscogsClassical, c);
    DiscogsBluesInitial();
    InitialMissAppend(DiscogsElectronicToBass + DiscogsElectronicToElectronic1 + DiscogsElectronicToElectronic2 + DiscogsElectronicToChill + DiscogsElectronicMisc1 + DiscogsElectronicMisc2 + DiscogsHipHop1 + DiscogsHipHop2 + DiscogsRockVarious1 + DiscogsRockVarious2 + DiscogsRockVarious3 + DiscogsRockToMetal1 + DiscogsRockToMetal2 + DiscogsRockToPunk1 + DiscogsRockToPunk2 + DiscogsJazz1 + DiscogsJazz2 + DiscogsClassical, DiscogsBlues, c);
    DiscogsFunkSoul1Initial();
    InitialMissAppend(DiscogsElectronicToBass + DiscogsElectronicToElectronic1 + DiscogsElectronicToElectronic2 + DiscogsElectronicToChill + DiscogsElectronicMisc1 + DiscogsElectronicMisc2 + DiscogsHipHop1 + DiscogsHipHop2 + DiscogsRockVarious1 + DiscogsRockVarious2 + DiscogsRockVarious3 + DiscogsRockToMetal1 + DiscogsRockToMetal2 + DiscogsRockToPunk1 + DiscogsRockToPunk2 + DiscogsJazz1 + DiscogsJazz2 + DiscogsClassical + DiscogsBlues, DiscogsFunkSoul1, c);
    DiscogsFunkSoul2Initial();
    InitialMissAppend(DiscogsElectronicToBass + DiscogsElectronicToElectronic1 + DiscogsElectronicToElectronic2 + DiscogsElectronicToChill + DiscogsElectronicMisc1 + DiscogsElectronicMisc2 + DiscogsHipHop1 + DiscogsHipHop2 + DiscogsRockVarious1 + DiscogsRockVarious2 + DiscogsRockVarious3 + DiscogsRockToMetal1 + DiscogsRockToMetal2 + DiscogsRockToPunk1 + DiscogsRockToPunk2 + DiscogsJazz1 + DiscogsJazz2 + DiscogsClassical + DiscogsBlues + DiscogsFunkSoul1, DiscogsFunkSoul2, c);
  }
  /** No label of the first 25 groups starts with a letter that none of their broad genres starts with. */
  lemma DiscogsMusicMiss(c: char)
    requires c != 'B' && c != 'C' && c != 'E' && c != 'F' && c != 'H' && c != 'J' && c != 'L' && c != 'P' && c != 'R'
    ensures InitialMiss(DiscogsElectronicToBass + DiscogsElectronicToElectronic1 + DiscogsElectronicToElectronic2 + DiscogsElectronicToChill + DiscogsElectronicMisc1 + DiscogsElectronicMisc2 + DiscogsHipHop1 + DiscogsHipHop2 + DiscogsRockVarious1 + DiscogsRockVarious2 + DiscogsRockVarious3 + DiscogsRockToMetal1 + DiscogsRockToMetal2 + DiscogsRockToPunk1 + DiscogsRockToPunk2 + DiscogsJazz1 + DiscogsJazz2 + DiscogsClassical + DiscogsBlues + DiscogsFunkSoul1 + DiscogsFunkSoul2 + DiscogsReggae + DiscogsPop + DiscogsFolkCountry + DiscogsLatin, c)
  {
    DiscogsPrefix3Miss(c);
    DiscogsReggaeInitial();
    InitialMissAppend(DiscogsElectronicToBass + DiscogsElectronicToElectronic1 + DiscogsElectronicToElectronic2 + DiscogsElectronicToChill + DiscogsElectronicMisc1 + DiscogsElectronicMisc2 + DiscogsHipHop1 + DiscogsHipHop2 + DiscogsRockVarious1 + DiscogsRockVarious2 + DiscogsRockVarious3 + DiscogsRockToMetal1 + DiscogsRockToMetal2 + DiscogsRockToPunk1 + DiscogsRockToPunk2 + DiscogsJazz1 + DiscogsJazz2 + DiscogsClassical + DiscogsBlues + DiscogsFunkSoul1 + DiscogsFunkSoul2, DiscogsReggae, c);
    DiscogsPopInitial();
    InitialMissAppend(DiscogsElectronicToBass + DiscogsElectronicToElectronic1 + DiscogsElectronicToElectronic2 + DiscogsElectronicToChill + DiscogsElectronicMisc1 + DiscogsElectronicMisc2 + DiscogsHipHop1 + DiscogsHipHop2 + DiscogsRockVarious1 + DiscogsRockVarious2 + DiscogsRockVarious3 + DiscogsRockToMetal1 + DiscogsRockToMetal2 + DiscogsRockToPunk1 + DiscogsRockToPunk2 + DiscogsJazz1 + DiscogsJazz2 + DiscogsClassical + DiscogsBlues + DiscogsFunkSoul1 + DiscogsFunkSoul2 + DiscogsReggae, DiscogsPop, c);
    DiscogsFolkCountryInitial();
    InitialMissAppend(DiscogsElectronicToBass + DiscogsElectronicToElectronic1 + DiscogsElectronicToElectronic2 + DiscogsElectronicToChill + DiscogsElectronicMisc1 + DiscogsElectronicMisc2 + DiscogsHipHop1 + DiscogsHipHop2 + DiscogsRockVarious1 + DiscogsRockVarious2 + DiscogsRockVarious3 + DiscogsRockToMetal1 + DiscogsRockToMetal2 + DiscogsRockToPunk1 + DiscogsRockToPunk2 + DiscogsJazz1 + DiscogsJazz2 + DiscogsClassical + DiscogsBlues + DiscogsFunkSoul1 + DiscogsFunkSoul2 + DiscogsReggae + DiscogsPop, DiscogsFolkCountry, c);
    DiscogsLatinInitial();
    InitialMissAppend(DiscogsElectronicToBass + DiscogsElectronicToElectronic1 + DiscogsElectronicToElectronic2 + DiscogsElectronicToChill + DiscogsElectronicMisc1 + DiscogsElectronicMisc2 + DiscogsHipHop1 + DiscogsHipHop2 + DiscogsRockVarious1 + DiscogsRockVarious2 + DiscogsRockVarious3 + DiscogsRockToMetal1 + DiscogsRockToMetal2 + DiscogsRockToPunk1 + DiscogsRockToPunk2 + DiscogsJazz1 + DiscogsJazz2 + DiscogsClassical + DiscogsBlues + DiscogsFunkSoul1 + DiscogsFunkSoul2 + DiscogsReggae + DiscogsPop + DiscogsFolkCountry, DiscogsLatin, c);
  }

  /** Every label of the table that starts with 'N' is a Non-Music label, mapped to no genre. */
  lemma DiscogsNMapsToNone()
    ensures InitialMapsTo(DiscogsTable, 'N', None)
  {
    DiscogsMusicMiss('N');
    InitialMapsToAppend(DiscogsElectronicToBass + DiscogsElectronicToElectronic1 + DiscogsElectronicToElectronic2 + DiscogsElectronicToChill + DiscogsElectronicMisc1 + DiscogsElectronicMisc2 + DiscogsHipHop1 + DiscogsHipHop2 + DiscogsRockVarious1 + DiscogsRockVarious2 + DiscogsRockVarious3 + DiscogsRockToMetal1 + DiscogsRockToMetal2 + DiscogsRockToPunk1 + DiscogsRockToPunk2 + DiscogsJazz1 + DiscogsJazz2 + DiscogsClassical + DiscogsBlues + DiscogsFunkSoul1 + DiscogsFunkSoul2 + DiscogsReggae + DiscogsPop + DiscogsFolkCountry + DiscogsLatin, DiscogsNonMusic, 'N', None);
    DiscogsStageScreenInitial();
    InitialMapsToAppend(DiscogsElectronicToBass + DiscogsElectronicToElectronic1 + DiscogsElectronicToElectronic2 + DiscogsElectronicToChill + DiscogsElectronicMisc1 + DiscogsElectronicMisc2 + DiscogsHipHop1 + DiscogsHipHop2 + DiscogsRockVarious1 + DiscogsRockVarious2 + DiscogsRockVarious3 + DiscogsRockToMetal1 + DiscogsRockToMetal2 + DiscogsRockToPunk1 + DiscogsRockToPunk2 + DiscogsJazz1 + DiscogsJazz2 + DiscogsClassical + DiscogsBlues + DiscogsFunkSoul1 + DiscogsFunkSoul2 + DiscogsReggae + DiscogsPop + DiscogsFolkCountry + DiscogsLatin + DiscogsNonMusic, DiscogsStageScreen, 'N', None);
    DiscogsBrassMilitaryInitial();
    InitialMapsToAppend(DiscogsElectronicToBass + DiscogsElectronicToElectronic1 + DiscogsElectronicToElectronic2 + DiscogsElectronicToChill + DiscogsElectronicMisc1 + DiscogsElectronicMisc2 + DiscogsHipHop1 + DiscogsHipHop2 + DiscogsRockVarious1 + DiscogsRockVarious2 + DiscogsRockVarious3 + DiscogsRockToMetal1 + DiscogsRockToMetal2 + DiscogsRockToPunk1 + DiscogsRockToPunk2 + DiscogsJazz1 + DiscogsJazz2 + DiscogsClassical + DiscogsBlues + DiscogsFunkSoul1 + DiscogsFunkSoul2 + DiscogsReggae + DiscogsPop + DiscogsFolkCountry + DiscogsLatin + DiscogsNonMusic + DiscogsStageScreen, DiscogsBrassMilitary, 'N', None);
  }

  /** A label starting with 'N', which every Non-Music label does, has no genre, whether it is listed or not. */
  lemma NonMusicHasNoGenre(discogsLabel: string)
    requires discogsLabel != [] && discogsLabel[0] == 'N'
    ensures DiscogsToKnob(discogsLabel) == None
  {
    DiscogsNMapsToNone();
    var f := FindKey(DiscogsTable, discogsLabel);
    if f.Some? {
      assert DiscogsTable[f.value].0 == discogsLabel;
    }
  }

  /** "Non-Music---Comedy" has no genre. */
  lemma ComedyHasNoGenre()
    ensures DiscogsToKnob("Non-Music---Comedy") == None
  {
    NonMusicHasNoGenre("Non-Music---Comedy");
  }

  /** A Stage & Screen label is found after every group before it: "Stage & Screen---Musical" is Pop. */
  lemma MusicalIsPop()
    ensures DiscogsToKnob("Stage & Screen---Musical") == Some(Genre(PopRock, "Pop"))
  {
    var musical := "Stage & Screen---Musical";
    DiscogsMusicMiss('S');
    DiscogsNonMusicInitial();
    InitialMissAppend(DiscogsElectronicToBass + DiscogsElectronicToElectronic1 + DiscogsElectronicToElectronic2 + DiscogsElectronicToChill + DiscogsElectronicMisc1 + DiscogsElectronicMisc2 + DiscogsHipHop1 + DiscogsHipHop2 + DiscogsRockVarious1 + DiscogsRockVarious2 + DiscogsRockVarious3 + DiscogsRockToMetal1 + DiscogsRockToMetal2 + DiscogsRockToPunk1 + DiscogsRockToPunk2 + DiscogsJazz1 + DiscogsJazz2 + DiscogsClassical + DiscogsBlues + DiscogsFunkSoul1 + DiscogsFunkSoul2 + DiscogsReggae + DiscogsPop + DiscogsFolkCountry + DiscogsLatin, DiscogsNonMusic, 'S');
    var front := DiscogsElectronicToBass + DiscogsElectronicToElectronic1 + DiscogsElectronicToElectronic2 + DiscogsElectronicToChill + DiscogsElectronicMisc1 + DiscogsElectronicMisc2 + DiscogsHipHop1 + DiscogsHipHop2 + DiscogsRockVarious1 + DiscogsRockVarious2 + DiscogsRockVarious3 + DiscogsRockToMetal1 + DiscogsRockToMetal2 + DiscogsRockToPunk1 + DiscogsRockToPunk2 + DiscogsJazz1 + DiscogsJazz2 + DiscogsClassical + DiscogsBlues + DiscogsFunkSoul1 + DiscogsFunkSoul2 + DiscogsReggae + DiscogsPop + DiscogsFolkCountry + DiscogsLatin + DiscogsNonMusic;
    var i := |front| + 2;
    assert DiscogsTable[i] == DiscogsStageScreen[2];
    forall j | 0 <= j < i
      ensures DiscogsTable[j].0 != musical
    {
      if j < |front| {
        assert DiscogsTable[j] == front[j];
        assert musical[0] == 'S';
      } else {
        assert DiscogsTable[j] == DiscogsStageScreen[j - |front|];
      }
    }
    DiscogsTargetsListed();
    LookupTargetFirst(DiscogsTable, musical, i);
  }
}
