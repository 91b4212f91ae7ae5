/**
  `Presenter::Clear` (clear.rb): the CSS class strings, the per-page layout
  and title tables, the colour scheme and size, and the static table of
  comparable company exits used by the CLEAR pages. Every method of the
  Ruby class returns a literal or indexes a Hash literal, so everything here
  is a function of its arguments.
*/
module Presenter {
  import opened Wrappers
  import opened RubyValue

  /** An instance of `Presenter::Clear`; it holds no state. */
  datatype Clear = Clear

  /** The four pages that the layout and title tables know. */
  datatype PageKey = Offer | Amendment | Landing | HowMuch
  {
    /** The Ruby Symbol that names this page in the tables. */
    function Symbol(): Value
    {
      match this
      case Offer => Sym("offer")
      case Amendment => Sym("amendment")
      case Landing => Sym("landing")
      case HowMuch => Sym("how_much")
    }
  }

  /** The page a Ruby value names, if any: the inverse of `PageKey.Symbol`. */
  function PageOf(v: Value): (r: Option<PageKey>)
    ensures r.Some? ==> r.value.Symbol() == v
    ensures forall k: PageKey :: k.Symbol() == v ==> r == Some(k)
  {
    match v
    case Sym(name) =>
      if name == "offer" then Some(Offer)
      else if name == "amendment" then Some(Amendment)
      else if name == "landing" then Some(Landing)
      else if name == "how_much" then Some(HowMuch)
      else None
    case _ => None
  }

  // ---------------------------------------------------------------------
  // CSS class strings. They are literals with no behaviour of their own.
  // ---------------------------------------------------------------------

  const PdfTitleStyle := "s-h2 s-vgBottom3 s-vgTop3"
  const PdfTermTitle := "s-h5 s-vgBottom0_5 s-vgTop1_5"
  const SectionTitle := "u-fontSize24 s-grid-colSm24 js-sectionTitle"
  const SectionTitleSubtext := "u-colorGray8 s-grid-colSm24 js-sectionTitleSubtext s-vgBorderBottom1 u-fontSize14 s-vgTop0_5"
  const SectionStyleNoMargin := "s-grid js-termSection"
  const PageTitle := "u-fontSize52 u-fontWeight100"
  const PageTitleSubtext := "u-fontSize24 u-fontWeight200 u-colorGray8 s-vgTop1_5"
  const PageTitleWrapper := "s-vgPadTop4 s-vgPadBottom4 u-textAlignCenter u-bgGray s-vgBottom4"
  const TermStyle := "js-clearTerm clearTerm"
  const TermLeft := "s-grid-colMd8 s-grid-break s-vgTop3"
  const TermRight := "s-grid-colMd16 s-vgTop5"
  const TermTitle := "s-h5 js-termTitle u-colorGray8 s-vgBottom0_5"
  const TermValue := "js-termValue"
  const TermTitleInputClass := "js-termInput"
  const DescriptionStyle := "u-colorGray8 termDescription js-termDescription"

  /** `section_style`: the no-margin section classes with a bottom margin added. */
  function SectionStyle(): (r: string)
    ensures SectionStyleNoMargin <= r
    ensures r[|SectionStyleNoMargin|..] == " s-vgBottom8"
  {
    SectionStyleNoMargin + " s-vgBottom8"
  }

  // ---------------------------------------------------------------------
  // Per-page tables. The page argument is any Ruby value and defaults to
  // `:offer`; a value that is not one of the four Symbols misses the Hash
  // and the lookup is `nil`, never a default entry.
  // ---------------------------------------------------------------------

  const LayoutTable: map<Value, string> := map[
    Sym("offer") := "single_column",
    Sym("amendment") := "single_column",
    Sym("landing") := "single_column",
    Sym("how_much") := "single_column"
  ]

  const TitleTable: map<Value, string> := map[
    Sym("offer") := "CLEAR Offer Letter",
    Sym("amendment") := "CLEAR Equity Amendment",
    Sym("landing") := "CLEAR and Fair Startup Equity",
    Sym("how_much") := "CLEAR: How Much Could Your Equity Be Worth?"
  ]

  /** `layout(page = :offer)`: every known page uses the single-column layout; any other value is absent. */
  function Layout(page: Value := Sym("offer")): (r: Option<string>)
    ensures r.Some? <==> PageOf(page).Some?
    ensures r.Some? ==> r.value == "single_column"
  {
    if page in LayoutTable then Some(LayoutTable[page]) else None
  }

  /** `title(page = :offer)`: a non-empty title for every known page; any other value is absent. */
  function Title(page: Value := Sym("offer")): (r: Option<string>)
    ensures r.Some? <==> PageOf(page).Some?
    ensures r.Some? ==> |r.value| > 0
  {
    if page in TitleTable then Some(TitleTable[page]) else None
  }

  /** `layout_scheme(page = :offer)`: the page argument is ignored. */
  function LayoutScheme(page: Value := Sym("offer")): (r: Value)
    ensures r == Sym("white_all")
  {
    Sym("white_all")
  }

  /** `layout_size`. */
  function LayoutSize(): (r: Value)
    ensures r == Sym("large")
  {
    Sym("large")
  }

  /** Every known page resolves to the single-column layout. */
  lemma LayoutOfEveryPage(k: PageKey)
    ensures Layout(k.Symbol()) == Some("single_column")
  {
  }

  /** Omitting the page argument is the same as passing `:offer`, for both tables. */
  lemma DefaultPageIsOffer()
    ensures Layout() == Layout(Offer.Symbol())
    ensures Title() == Title(Offer.Symbol())
    ensures Title() == Some("CLEAR Offer Letter")
  {
  }

  /** A value that names no page is absent from both tables: a miss is not turned into a default. */
  lemma UnknownPageIsAbsent(page: Value)
    requires PageOf(page).None?
    ensures Layout(page).None? && Title(page).None?
  {
  }

  /** The four pages have four different titles. */
  lemma TitlesDistinct(a: PageKey, b: PageKey)
    requires a != b
    ensures Title(a.Symbol()).Some? && Title(b.Symbol()).Some?
    ensures Title(a.Symbol()).value != Title(b.Symbol()).value
  {
  }

  /** The title of the `how_much` page. */
  lemma HowMuchTitle()
    ensures Title(HowMuch.Symbol()) == Some("CLEAR: How Much Could Your Equity Be Worth?")
  {
  }

  /** The colour scheme is `:white_all` for every argument, known page or not, and the size is `:large`. */
  lemma SchemeAndSizeAreFixed(page: Value)
    ensures LayoutScheme(page) == LayoutScheme() == Sym("white_all")
    ensures LayoutSize() == Sym("large")
  {
  }

  // ---------------------------------------------------------------------
  // Comparable exits: five valuation tiers, each listing companies whose
  // acquisition or IPO value illustrates that tier.
  // ---------------------------------------------------------------------

  datatype Company = Company(name: string, value: int, url: string)

  datatype Tier = Tier(approx: int, companies: seq<Company>)

  const AngelListPrefix := "https://angel.co/"

  /** `comparable_exits`, literally as the Ruby source writes it (see `CaviarMisplaced`). */
  function ComparableExits(): (r: seq<Tier>)
    ensures |r| == 5
    ensures forall i :: 0 <= i < |r| ==> |r[i].companies| > 0
  {
    [
      Tier(100_000_000, [
        Company("Caviar", 90_1000_1000, "https://angel.co/caviar")
      ]),
      Tier(500_000_000, [
        Company("Dropcam", 555_000_000, "https://angel.co/dropcam"),
        Company("MyFitnessPal", 475_000_000, "https://angel.co/myfitnesspal")
      ]),
      Tier(1_000_000_000, [
        Company("Twitch", 970_000_000, "https://angel.co/twitch"),
        Company("New Relic", 1_060_000_000, "https://angel.co/new-relic")
      ]),
      Tier(5_000_000_000, [
        Company("Lending Club", 5_420_000_000, "https://angel.co/lending-club"),
        Company("King (candy crush)", 5_900_000_000, "https://angel.co/king-com")
      ]),
      Tier(10_000_000_000, [
        Company("PeopleSoft", 10_300_000_000, "https://angel.co/peoplesoft"),
        Company("Twitter", 14_200_000_000, "https://angel.co/twitter")
      ])
    ]
  }

  /**
    The table with Caviar's value as evidently intended: $90 million, in
    the $100 million tier. Every other entry is the literal one.
  */
  function CorrectedExits(): (r: seq<Tier>)
    ensures |r| == |ComparableExits()|
    ensures forall i :: 0 <= i < |r| ==> r[i].approx == ComparableExits()[i].approx
    ensures r[0].companies == [ComparableExits()[0].companies[0].(value := 90_000_000)]
    ensures forall i :: 1 <= i < |r| ==> r[i] == ComparableExits()[i]
  {
    var t := ComparableExits();
    t[0 := t[0].(companies := [t[0].companies[0].(value := 90_000_000)])]
  }

  /** Tiers ordered by strictly increasing approximate value. */
  ghost predicate StrictlyIncreasing(t: seq<Tier>)
  {
    forall i, j :: 0 <= i < j < |t| ==> t[i].approx < t[j].approx
  }

  /** Every tier lists a company, and every company has a name and an AngelList URL. */
  ghost predicate WellFormedCompanies(t: seq<Tier>)
  {
    forall i :: 0 <= i < |t| ==>
      |t[i].companies| > 0 &&
      forall c :: c in t[i].companies ==> |c.name| > 0 && AngelListPrefix <= c.url
  }

  function Distance(a: int, b: int): nat
  {
    if a < b then b - a else a - b
  }

  /** Every company sits in the tier whose approximate value is nearest to its own value. */
  ghost predicate InNearestTier(t: seq<Tier>)
  {
    forall i, c, j :: 0 <= i < |t| && c in t[i].companies && 0 <= j < |t| ==>
      Distance(c.value, t[i].approx) <= Distance(c.value, t[j].approx)
  }

  /** The five tiers are 100M, 500M, 1B, 5B and 10B, in that order. */
  lemma ExitTierApproxes()
    ensures var t := ComparableExits();
      |t| == 5 &&
      t[0].approx == 100_000_000 && t[1].approx == 500_000_000 &&
      t[2].approx == 1_000_000_000 && t[3].approx == 5_000_000_000 &&
      t[4].approx == 10_000_000_000
  {
  }

  /** The tiers are in strictly increasing order, in the literal table and in the corrected one. */
  lemma ExitTiersIncreasing()
    ensures StrictlyIncreasing(ComparableExits())
    ensures StrictlyIncreasing(CorrectedExits())
  {
  }

  /** Both tables list at least one company per tier, each named and linked to AngelList. */
  lemma ExitCompaniesWellFormed()
    ensures WellFormedCompanies(ComparableExits())
    ensures WellFormedCompanies(CorrectedExits())
  {
    var t := ComparableExits();
    forall i | 0 <= i < |t|
      ensures |t[i].companies| > 0
      ensures forall c :: c in t[i].companies ==> |c.name| > 0 && AngelListPrefix <= c.url
    {
      forall c | c in t[i].companies
        ensures |c.name| > 0 && AngelListPrefix <= c.url
      {
        AngelListUrl(c.url[|AngelListPrefix|..]);
      }
    }
  }

  lemma AngelListUrl(slug: string)
    ensures AngelListPrefix <= AngelListPrefix + slug
  {
  }

  /**
    As written, Caviar's value `90_1000_1000` is 9,010,001,000: it is listed
    in the 100M tier although the 10B tier is far nearer to it.
  */
  lemma CaviarMisplaced()
    ensures ComparableExits()[0].companies[0].name == "Caviar"
    ensures ComparableExits()[0].companies[0].value == 9_010_001_000
    ensures !InNearestTier(ComparableExits())
  {
    var t := ComparableExits();
    var caviar := t[0].companies[0];
    assert caviar in t[0].companies;
    assert Distance(caviar.value, t[0].approx) > Distance(caviar.value, t[4].approx);
  }

  /** With Caviar at $90 million, every company sits in its nearest tier. */
  lemma CorrectedExitsInNearestTier()
    ensures InNearestTier(CorrectedExits())
  {
  }
}
