/**
 * The donors page (`src/pages/Donors.tsx`): the featured/regular split of the donor list and
 * the per-level and per-type lookups that decorate each card.
 */
module Donors {
  import Seqs
  import Text

  datatype DonorType = Individual | Organization | Government | Foundation

  datatype Level = Platinum | Gold | Silver | Bronze | Supporter

  /** The icons the page draws, named after the components it uses. */
  datatype Icon = Diamond | Crown | Trophy | Award | Heart | Users | Building | Globe | Handshake

  /** One `levelConfig` entry, without its background and border classes. */
  datatype LevelStyle = LevelStyle(icon: Icon, color: string, labelText: string)

  datatype Donor = Donor(id: string, name: string, kind: DonorType, level: Level, featured: bool)

  /** The six shipped donors. */
  const AllDonors: seq<Donor> := [
    Donor("1", "Bangladesh Government", Government, Platinum, true),
    Donor("2", "Liberation War Veterans Association", Organization, Gold, true),
    Donor("3", "UNESCO", Organization, Gold, true),
    Donor("4", "Dr. Aminul Islam", Individual, Silver, false),
    Donor("5", "Bangabandhu Foundation", Foundation, Gold, true),
    Donor("6", "International Community", Organization, Silver, false)
  ]

  // ---------------------------------------------------------------------------
  // Lookups
  // ---------------------------------------------------------------------------

  /** `levelConfig[level]`: an entry for each of the five levels. */
  function LevelConfig(level: Level): (s: LevelStyle)
    ensures s.icon in {Diamond, Crown, Trophy, Award, Heart}
    ensures Text.StartsWith(s.color, "text-") && Text.EndsWith(s.color, "-600")
  {
    match level
    case Platinum => LevelStyle(Diamond, "text-blue-600", "Platinum Patron")
    case Gold => LevelStyle(Crown, "text-yellow-600", "Gold Supporter")
    case Silver => LevelStyle(Trophy, "text-gray-600", "Silver Contributor")
    case Bronze => LevelStyle(Award, "text-orange-600", "Bronze Supporter")
    case Supporter => LevelStyle(Heart, "text-red-600", "Community Supporter")
  }

  /** Different levels get different icons and different labels. */
  lemma LevelConfigDistinct(a: Level, b: Level)
    requires a != b
    ensures LevelConfig(a).icon != LevelConfig(b).icon
    ensures LevelConfig(a).labelText != LevelConfig(b).labelText
  {
    assert LevelConfig(a).labelText[0] != LevelConfig(b).labelText[0];
  }

  /** `typeIcons[type]`: an entry for each of the four donor types. */
  function TypeIcon(kind: DonorType): (icon: Icon)
    ensures icon in {Users, Building, Globe, Handshake}
  {
    match kind
    case Individual => Users
    case Organization => Building
    case Government => Globe
    case Foundation => Handshake
  }

  /** Different types get different icons, none of them a level icon. */
  lemma TypeIconsDistinct(a: DonorType, b: DonorType, l: Level)
    requires a != b
    ensures TypeIcon(a) != TypeIcon(b)
    ensures TypeIcon(a) != LevelConfig(l).icon
  {
  }

  // ---------------------------------------------------------------------------
  // Featured and regular donors
  // ---------------------------------------------------------------------------

  predicate IsFeatured(d: Donor) { d.featured }

  predicate IsRegular(d: Donor) { !d.featured }

  /** `donors.filter(donor => donor.featured)`. */
  function Featured(donors: seq<Donor>): (r: seq<Donor>)
    ensures forall d :: d in r <==> d in donors && d.featured
  {
    Seqs.Filter(donors, IsFeatured)
  }

  /** `donors.filter(donor => !donor.featured)`. */
  function Regular(donors: seq<Donor>): (r: seq<Donor>)
    ensures forall d :: d in r <==> d in donors && !d.featured
  {
    Seqs.Filter(donors, IsRegular)
  }

  /** The two lists split the donors: each donor lands in exactly one, in the original order,
      and together they hold every donor exactly as often as the full list does. */
  lemma FeaturedRegularPartition(donors: seq<Donor>)
    ensures forall d :: d in donors ==> (d in Featured(donors) <==> d !in Regular(donors))
    ensures |Featured(donors)| + |Regular(donors)| == |donors|
    ensures multiset(Featured(donors)) + multiset(Regular(donors)) == multiset(donors)
    ensures Seqs.IsSubsequence(Featured(donors), donors) && Seqs.IsSubsequence(Regular(donors), donors)
  {
    Seqs.FilterPartition(donors, IsFeatured, IsRegular);
    Seqs.FilterIsSubsequence(donors, IsFeatured);
    Seqs.FilterIsSubsequence(donors, IsRegular);
  }

  function Ids(donors: seq<Donor>): (r: seq<string>)
    ensures |r| == |donors|
    ensures forall i :: 0 <= i < |r| ==> r[i] == donors[i].id
  {
    seq(|donors|, i requires 0 <= i < |donors| => donors[i].id)
  }

  /** The featured flags of the shipped list, in order. */
  predicate ShippedPattern(ds: seq<Donor>)
  {
    |ds| == 6 && ds[0].featured && ds[1].featured && ds[2].featured && !ds[3].featured
    && ds[4].featured && !ds[5].featured
  }

  lemma AllDonorsPattern()
    ensures ShippedPattern(AllDonors)
  {
  }

  /** For a list with the shipped flags, the featured filter keeps positions 0, 1, 2 and 4. */
  lemma FeaturedOfPattern(ds: seq<Donor>)
    requires ShippedPattern(ds)
    ensures Featured(ds) == [ds[0], ds[1], ds[2], ds[4]]
  {
    FeaturedFromOneOfPattern(ds);
    FilterKeepsHead(ds, IsFeatured, [ds[1], ds[2], ds[4]]);
    assert [ds[0]] + [ds[1], ds[2], ds[4]] == [ds[0], ds[1], ds[2], ds[4]];
  }

  lemma FeaturedFromOneOfPattern(ds: seq<Donor>)
    requires ShippedPattern(ds)
    ensures Seqs.Filter(ds[1..], IsFeatured) == [ds[1], ds[2], ds[4]]
  {
    FeaturedTailOfPattern(ds);
    FilterStep(ds, 1, IsFeatured);
  }

  lemma FeaturedTailOfPattern(ds: seq<Donor>)
    requires ShippedPattern(ds)
    ensures Seqs.Filter(ds[2..], IsFeatured) == [ds[2], ds[4]]
  {
    FilterStep(ds, 5, IsFeatured);
    assert ds[6..] == [];
    FilterStep(ds, 4, IsFeatured);
    FilterStep(ds, 3, IsFeatured);
    FilterStep(ds, 2, IsFeatured);
  }

  /** For a list with the shipped flags, the regular filter keeps positions 3 and 5. */
  lemma RegularOfPattern(ds: seq<Donor>)
    requires ShippedPattern(ds)
    ensures Regular(ds) == [ds[3], ds[5]]
  {
    var r5 := Seqs.Filter(ds[5..], IsRegular);
    FilterStep(ds, 5, IsRegular);
    assert r5 == [ds[5]];
    var r4 := Seqs.Filter(ds[4..], IsRegular);
    FilterStep(ds, 4, IsRegular);
    assert r4 == r5;
    var r3 := Seqs.Filter(ds[3..], IsRegular);
    FilterStep(ds, 3, IsRegular);
    assert r3 == [ds[3], ds[5]];
    var r2 := Seqs.Filter(ds[2..], IsRegular);
    FilterStep(ds, 2, IsRegular);
    assert r2 == r3;
    var r1 := Seqs.Filter(ds[1..], IsRegular);
    FilterStep(ds, 1, IsRegular);
    assert r1 == r2;
    FilterStep(ds, 0, IsRegular);
    assert ds[0..] == ds;
  }

  /** The ids of the shipped list, in order. */
  predicate ShippedIds(ds: seq<Donor>)
  {
    |ds| == 6 && ds[0].id == "1" && ds[1].id == "2" && ds[2].id == "3" && ds[3].id == "4"
    && ds[4].id == "5" && ds[5].id == "6"
  }

  lemma AllDonorsIds()
    ensures ShippedIds(AllDonors)
  {
  }

  /** For a list with the shipped flags and ids, donors 1, 2, 3 and 5 are featured
      and donors 4 and 6 are regular. */
  lemma SplitOfShippedShape(ds: seq<Donor>)
    requires ShippedPattern(ds) && ShippedIds(ds)
    ensures Ids(Featured(ds)) == ["1", "2", "3", "5"]
    ensures Ids(Regular(ds)) == ["4", "6"]
  {
    FeaturedOfPattern(ds);
    RegularOfPattern(ds);
  }

  /** With the shipped data, donors 1, 2, 3 and 5 are featured and donors 4 and 6 are regular. */
  lemma ShippedSplit()
    ensures Ids(Featured(AllDonors)) == ["1", "2", "3", "5"]
    ensures Ids(Regular(AllDonors)) == ["4", "6"]
  {
    AllDonorsPattern();
    AllDonorsIds();
    SplitOfShippedShape(AllDonors);
  }

  /** A filter keeps a first element that satisfies the predicate, then filters the rest. */
  lemma FilterKeepsHead(ds: seq<Donor>, p: Donor -> bool, tail: seq<Donor>)
    requires |ds| > 0 && p(ds[0]) && Seqs.Filter(ds[1..], p) == tail
    ensures Seqs.Filter(ds, p) == [ds[0]] + tail
  {
  }

  /** One step of a filter over a suffix. */
  lemma FilterStep(ds: seq<Donor>, i: nat, p: Donor -> bool)
    requires i < |ds|
    ensures p(ds[i]) ==> Seqs.Filter(ds[i..], p) == [ds[i]] + Seqs.Filter(ds[i + 1..], p)
    ensures !p(ds[i]) ==> Seqs.Filter(ds[i..], p) == Seqs.Filter(ds[i + 1..], p)
  {
    assert ds[i..][1..] == ds[i + 1..];
  }
}
