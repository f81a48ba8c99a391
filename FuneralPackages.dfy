/** The funeral package catalog and the screen that lists it: each card
    shows a package's name, price and summary, opens to show its details,
    and selecting a package moves on to the package details screen with the
    booking form that led here. */
module FuneralPackages {
  import opened Wrappers
  import opened Text
  import opened Chatbot
  import opened Booking

  /** A catalog entry: its details are a bullet list of features and a
      closing sentence. */
  datatype FuneralPackage = FuneralPackage(
    name: string, price: string, summary: string, features: seq<string>, closing: string)

  /** The number of packages. */
  const PackageCount := 10

  /** The name of package `x`, counting from 0. */
  function Name(x: nat): string
    requires x < PackageCount
  {
    match x
    case 0 => "Package A"
    case 1 => "Package B"
    case 2 => "Package C"
    case 3 => "Package D"
    case 4 => "Package E"
    case 5 => "Package F"
    case 6 => "Package G"
    case 7 => "Package H"
    case 8 => "Package I"
    case 9 => "Package J"
  }

  /** Its price label. */
  function Price(x: nat): string
    requires x < PackageCount
  {
    match x
    case 0 => "₱30,000"
    case 1 => "₱40,000"
    case 2 => "₱50,000"
    case 3 => "₱60,000"
    case 4 => "₱70,000"
    case 5 => "₱80,000"
    case 6 => "₱90,000"
    case 7 => "₱100,000"
    case 8 => "₱120,000"
    case 9 => "₱250,000"
  }

  /** Its one-line summary. */
  function Summary(x: nat): string
    requires x < PackageCount
  {
    match x
    case 0 => "Basic funeral essentials."
    case 1 => "Enhanced essentials with upgraded amenities."
    case 2 => "Popular choice with more customization."
    case 3 => "Includes additional amenities and family support."
    case 4 => "Premium service and memorable tributes."
    case 5 => "All-inclusive with celebration options."
    case 6 => "High-end luxury with custom elements."
    case 7 => "Large family and VIP accommodations."
    case 8 => "Executive memorial, all services included."
    case 9 => "Ultimate luxury, custom everything."
  }

  /** The features its details list. */
  function Features(x: nat): seq<string>
    requires x < PackageCount
  {
    match x
    case 0 => 
      [ "Standard casket or urn",
        "Basic embalming & body care",
        "Simple floral arrangement",
        "1-day viewing (chapel or home)",
        "Hearse transport",
        "Documentation assistance" ]
    case 1 => 
      [ "Upgraded casket or urn options",
        "Enhanced embalming",
        "Classic floral decor",
        "2-day viewing (chapel or home)",
        "Transportation for family",
        "All Package A inclusions" ]
    case 2 => 
      [ "Premium casket or urn",
        "Themed floral arrangements",
        "3-day viewing (chapel or home)",
        "Audio-visual setup for tributes",
        "Photo slideshow & memory table",
        "All Package B inclusions" ]
    case 3 => 
      [ "Choice of casket/urn finishes",
        "Extended viewing (up to 4 days)",
        "Family lounge with refreshments",
        "Grief support resources",
        "All Package C inclusions" ]
    case 4 => 
      [ "Live video streaming for distant family",
        "Floral arch and custom decor",
        "Professional host/MC for the service",
        "Catering coordination",
        "All Package D inclusions" ]
    case 5 => 
      [ "Celebration of life arrangements",
        "Video and photo tribute production",
        "Premium catering (choice of menu)",
        "All Package E inclusions" ]
    case 6 => 
      [ "Luxury casket or imported urn",
        "High-end floral installations",
        "Private viewing rooms",
        "Professional event planner",
        "All Package F inclusions" ]
    case 7 => 
      [ "VIP suite for family",
        "Extended multi-day viewing",
        "Exclusive chapel access",
        "Full transportation fleet",
        "All Package G inclusions" ]
    case 8 => 
      [ "Executive casket/urn collection",
        "Lasting memorial keepsakes",
        "On-site grief counselor",
        "All Package H inclusions" ]
    case 9 => 
      [ "Fully bespoke arrangements",
        "Choice of international casket/urn",
        "Custom theme and decor",
        "Celebrity event services available",
        "All Package I inclusions" ]
  }

  /** The sentence that closes its details. */
  function Closing(x: nat): string
    requires x < PackageCount
  {
    match x
    case 0 => 
      "Ideal for families seeking a simple, dignified farewell."
    case 1 => 
      "Best for those wanting more time and amenities."
    case 2 => 
      "Our most chosen package for added comfort and memories."
    case 3 => 
      "For families who want extra time together."
    case 4 => 
      "Perfect for larger gatherings and celebrations of life."
    case 5 => 
      "For heartfelt commemorations and gatherings."
    case 6 => 
      "For a truly unique and elegant service."
    case 7 => 
      "Designed for large families and VIP needs."
    case 8 => 
      "For those who desire a premier memorial experience."
    case 9 => 
      "The most exclusive and personalized package."
  }

  /** Package `x` of the catalog. */
  function Package(x: nat): FuneralPackage
    requires x < PackageCount
  {
    FuneralPackage(Name(x), Price(x), Summary(x), Features(x), Closing(x))
  }

  /** The ten packages, from the cheapest to the most exclusive. */
  function Catalog(): (c: seq<FuneralPackage>)
    ensures |c| == PackageCount
    ensures forall x :: 0 <= x < PackageCount ==> c[x] == Package(x)
  {
    seq(PackageCount, x requires 0 <= x < PackageCount => Package(x))
  }

  /** A feature as a bullet line. */
  function Bullet(f: string): string {
    "• " + f
  }

  function Bullets(fs: seq<string>): (lines: seq<string>)
    ensures |lines| == |fs|
    ensures forall k :: 0 <= k < |fs| ==> lines[k] == Bullet(fs[k])
  {
    if fs == [] then [] else [Bullet(fs[0])] + Bullets(fs[1..])
  }

  /** The details text of a card: the bullets, an empty line and the closing
      sentence, one per line. */
  function Details(p: FuneralPackage): string {
    Join(Bullets(p.features) + ["", p.closing], '\n')
  }

  /** A package's texts contain no line break. */
  predicate SingleLines(p: FuneralPackage) {
    '\n' !in p.closing && forall k :: 0 <= k < |p.features| ==> '\n' !in p.features[k]
  }

  /** The details text falls apart again into the bullet lines, the empty
      line and the closing sentence. */
  lemma DetailsLines(p: FuneralPackage)
    requires SingleLines(p)
    ensures Split(Details(p), '\n') == Bullets(p.features) + ["", p.closing]
  {
    var lines := Bullets(p.features) + ["", p.closing];
    forall k | 0 <= k < |lines| ensures '\n' !in lines[k] {
      if k < |p.features| {
        assert lines[k] == "• " + p.features[k];
      }
    }
    SplitJoin(lines, '\n');
  }

  /** The catalog's names and prices. */
  function PriceList(ps: seq<FuneralPackage>): (r: seq<PackagePrice>)
    ensures |r| == |ps|
    ensures forall k :: 0 <= k < |ps| ==> r[k] == PackagePrice(ps[k].name, ps[k].price)
  {
    if ps == [] then [] else [PackagePrice(ps[0].name, ps[0].price)] + PriceList(ps[1..])
  }

  /** The screen's catalog and the assistant's price list agree on the
      name and the price of package `x`. */
  lemma PriceAt(x: nat)
    requires x < PackageCount
    ensures |Packages()| == PackageCount
    ensures PackagePrice(Name(x), Price(x)) == Packages()[x]
  {
  }

  /** The screen's catalog and the assistant's price list agree on every
      package's name and price, in the same order. */
  lemma CatalogMatchesAssistant()
    ensures PriceList(Catalog()) == Packages()
  {
    var listed, quoted := PriceList(Catalog()), Packages();
    PriceAt(0);
    forall x | 0 <= x < PackageCount
      ensures listed[x] == quoted[x]
    {
      PriceAt(x);
    }
    assert |listed| == |quoted|;
  }

  /** The screen's state: the booking form it was opened with, if any, and
      the one card whose details are open, if any. */
  class PackagesScreen {
    const form: Option<Form>
    var expanded: Option<nat>

    constructor (f: Option<Form>)
      ensures form == f && expanded.None?
    {
      form := f;
      expanded := None;
    }

    /** The line under the title: the deceased's name from the form, when
        there is a non-empty one. */
    function Subtitle(): (s: Option<string>)
      ensures s.Some? <==> form.Some? && form.value.deceasedName != []
      ensures s.Some? ==> s.value == "For: " + form.value.deceasedName
    {
      if form.Some? && form.value.deceasedName != [] then Some("For: " + form.value.deceasedName) else None
    }

    /** Card `idx` shows its details and "View Less" exactly when it is the
        expanded one. */
    function ToggleLabel(idx: nat): (s: string)
      reads this
      ensures s == "View Less" <==> expanded == Some(idx)
      ensures s == "View More" <==> expanded != Some(idx)
    {
      if expanded == Some(idx) then "View Less" else "View More"
    }

    /** The details card `idx` shows, if any: only the expanded card shows
        them. */
    function ShownDetails(idx: nat): (d: Option<string>)
      requires idx < PackageCount
      reads this
      ensures d.Some? <==> expanded == Some(idx)
      ensures d.Some? ==> d.value == Details(Catalog()[idx])
    {
      if expanded == Some(idx) then Some(Details(Package(idx))) else None
    }

    /** At most one card shows its details, and it reads "View Less". */
    lemma AtMostOneOpen(i: nat, j: nat)
      requires i < PackageCount && j < PackageCount
      requires ShownDetails(i).Some? && ShownDetails(j).Some?
      ensures i == j && ToggleLabel(i) == "View Less"
    {
    }

    /** Pressing card `idx`'s toggle. */
    method Toggle(idx: nat)
      requires idx < PackageCount
      modifies this
      ensures expanded == Toggled(old(expanded), idx)
      ensures forall j :: ToggleLabel(j) == "View Less" <==> j == idx && old(expanded) != Some(idx)
    {
      expanded := if expanded == Some(idx) then None else Some(idx);
    }

    /** Selecting card `idx`: the package and the form go to the package
        details screen. */
    method Select(idx: nat) returns (nav: PackageDetailsRoute)
      requires idx < PackageCount
      ensures nav == PackageDetailsRoute(Catalog()[idx], form)
    {
      nav := PackageDetailsRoute(Package(idx), form);
    }
  }

  /** The navigation to the package details screen and its parameters. */
  datatype PackageDetailsRoute = PackageDetailsRoute(selectedPackage: FuneralPackage, form: Option<Form>)

  /** `expanded === idx ? null : idx`. */
  function Toggled(e: Option<nat>, idx: nat): (r: Option<nat>)
    ensures r == Some(idx) <==> e != Some(idx)
    ensures r.None? <==> e == Some(idx)
  {
    if e == Some(idx) then None else Some(idx)
  }

  /** Pressing the same toggle twice restores the screen exactly when no
      other card was open before. */
  lemma ToggleTwice(e: Option<nat>, idx: nat)
    ensures Toggled(Toggled(e, idx), idx) == e <==> e.None? || e == Some(idx)
  {
  }

  /** Opening one card closes any other. */
  lemma ToggleOpensOne(e: Option<nat>, idx: nat, other: nat)
    requires other != idx && e == Some(other)
    ensures Toggled(e, idx) == Some(idx)
  {
  }
}
