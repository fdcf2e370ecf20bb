/** The project gallery: the project record, the colour and icon choices of
    a project card, which parts of a card are rendered, and the gallery's
    own data. */
module Projects {
  import opened Optional
  import opened Numeric

  datatype Category = WebDevelopment | MobileDevelopment | FullStack | LandingPage

  datatype Status = Completed | InProgress | Planning {
    /** The string the status is written as in the data and on the badge. */
    function Label(): string {
      match this
      case Completed => "Completed"
      case InProgress => "In Progress"
      case Planning => "Planning"
    }
  }

  /** A technology chip; the icon component is not modelled. */
  datatype Technology = Technology(name: string, color: string)

  datatype Project = Project(
    id: string,
    title: string,
    description: string,
    longDescription: string,
    imageUrl: string,
    technologies: seq<Technology>,
    category: Category,
    status: Status,
    featured: bool,
    githubUrl: Option<string>,
    liveUrl: Option<string>,
    date: string,
    highlights: seq<string>)

  // ---------------------------------------------------------------------
  // Status colours
  // ---------------------------------------------------------------------

  const Emerald: string := "#10B981"
  const Amber: string := "#F59E0B"
  const Gray: string := "#6B7280"

  /** The alpha byte appended to a badge colour for its background
      (0x10, about 6% opacity). */
  const BackgroundAlpha: string := "10"

  predicate IsHexDigit(c: char) {
    '0' <= c <= '9' || 'A' <= c <= 'F' || 'a' <= c <= 'f'
  }

  /** `#` followed by `n` hexadecimal digits. */
  predicate IsHexColorOf(s: string, n: nat) {
    |s| == n + 1 && s[0] == '#' && forall i :: 1 <= i < |s| ==> IsHexDigit(s[i])
  }

  /** The badge text colour.  It takes any string: the three known statuses
      get their own colour, Planning shares the grey fallback. */
  function StatusColor(status: string): (c: string)
    ensures IsHexColorOf(c, 6)
    ensures status == "Completed" ==> c == Emerald
    ensures status == "In Progress" ==> c == Amber
    ensures c == Gray <==> status != "Completed" && status != "In Progress"
  {
    match status
    case "Completed" => Emerald
    case "In Progress" => Amber
    case "Planning" => Gray
    case _ => Gray
  }

  /** The badge background, written out separately in the component as a
      table of eight-digit colours. */
  function StatusBgColor(status: string): (c: string)
    ensures IsHexColorOf(c, 8)
  {
    match status
    case "Completed" => "#10B98110"
    case "In Progress" => "#F59E0B10"
    case "Planning" => "#6B728010"
    case _ => "#6B728010"
  }

  /** The two tables agree: every background is its text colour with the
      alpha byte appended. */
  lemma BgIsForegroundWithAlpha(status: string)
    ensures StatusBgColor(status) == StatusColor(status) + BackgroundAlpha
  {
    if status == "Completed" {
      assert StatusBgColor(status) == Emerald + BackgroundAlpha;
    } else if status == "In Progress" {
      assert StatusBgColor(status) == Amber + BackgroundAlpha;
    } else {
      assert StatusBgColor(status) == Gray + BackgroundAlpha;
    }
  }

  /** Distinct statuses of the record type are told apart by colour except
      Planning, which reads the same as an unrecognised status. */
  lemma StatusColorsOfKnownStatuses(s: Status, t: Status)
    ensures StatusColor(s.Label()) == StatusColor(t.Label()) <==> s == t
    ensures StatusColor(Planning.Label()) == StatusColor("")
  {
  }

  // ---------------------------------------------------------------------
  // Category icon
  // ---------------------------------------------------------------------

  datatype Icon = MobileIcon | DatabaseIcon | DesktopIcon

  /** Mobile projects get a phone, full-stack ones a database, and every
      other category the desktop icon. */
  function CategoryIcon(c: Category): (i: Icon)
    ensures i == MobileIcon <==> c == MobileDevelopment
    ensures i == DatabaseIcon <==> c == FullStack
    ensures i == DesktopIcon <==> c == WebDevelopment || c == LandingPage
  {
    match c
    case MobileDevelopment => MobileIcon
    case FullStack => DatabaseIcon
    case _ => DesktopIcon
  }

  // ---------------------------------------------------------------------
  // Highlights: `Array.prototype.slice`
  // ---------------------------------------------------------------------

  /** How `Array.prototype.slice` turns an integer argument into a
      position (section 23.1.3.28 of ECMAScript 2024): negative arguments
      count from the end, and the result is clamped to the array. */
  function RelativeIndex(rel: int, len: nat): (k: nat)
    ensures k <= len
  {
    if rel < 0 then Max(len + rel, 0) else Min(rel, len)
  }

  /** `s.slice(start, end)` for integer arguments: the contiguous run
      between the two positions, empty when they cross. */
  function Slice<T>(s: seq<T>, start: int, end: int): (r: seq<T>)
    ensures |r| == Max(RelativeIndex(end, |s|) - RelativeIndex(start, |s|), 0)
    ensures forall i :: 0 <= i < |r| ==> r[i] == s[RelativeIndex(start, |s|) + i]
  {
    var k := RelativeIndex(start, |s|);
    var f := RelativeIndex(end, |s|);
    if k < f then s[k..f] else []
  }

  /** `slice(0, n)` keeps the first `n` elements, or all of them when there
      are fewer. */
  lemma SliceFromZeroIsPrefix<T>(s: seq<T>, n: nat)
    ensures Slice(s, 0, n) == s[..Min(n, |s|)]
  {
    var r := Slice(s, 0, n);
    assert |r| == Min(n, |s|);
    assert forall i :: 0 <= i < |r| ==> r[i] == s[i];
  }

  const MaxHighlights: nat := 3

  /** The "Key Features" list: present only on featured cards, holding the
      first three highlights in their original order. */
  function ShownHighlights(p: Project): (r: Option<seq<string>>)
    ensures r.Some? <==> p.featured
    ensures r.Some? ==> |r.value| == Min(MaxHighlights, |p.highlights|)
    ensures r.Some? ==> r.value <= p.highlights
  {
    if p.featured then
      SliceFromZeroIsPrefix(p.highlights, MaxHighlights);
      Some(Slice(p.highlights, 0, MaxHighlights))
    else None
  }

  // ---------------------------------------------------------------------
  // Links
  // ---------------------------------------------------------------------

  /** JavaScript truthiness of an optional string: neither `undefined` nor
      the empty string. */
  predicate Truthy(o: Option<string>) {
    o.Some? && o.value != ""
  }

  datatype LinkKind = SourceCode | LiveDemo
  datatype Link = Link(kind: LinkKind, href: string)

  predicate HasLink(links: seq<Link>, kind: LinkKind) {
    exists i :: 0 <= i < |links| && links[i].kind == kind
  }

  /** The links of a card, in the order they are rendered.  The image
      overlay and the action row both render exactly this list (as icon
      buttons and as labelled links respectively). */
  function CardLinks(p: Project): (r: seq<Link>)
    ensures HasLink(r, SourceCode) <==> Truthy(p.githubUrl)
    ensures HasLink(r, LiveDemo) <==> Truthy(p.liveUrl)
    ensures forall i :: 0 <= i < |r| && r[i].kind == SourceCode ==> p.githubUrl == Some(r[i].href)
    ensures forall i :: 0 <= i < |r| && r[i].kind == LiveDemo ==> p.liveUrl == Some(r[i].href)
    ensures forall i :: 0 <= i < |r| ==> r[i].href != ""
    ensures forall i, j :: 0 <= i < j < |r| ==> r[i].kind == SourceCode && r[j].kind == LiveDemo
  {
    var source := if Truthy(p.githubUrl) then [Link(SourceCode, p.githubUrl.value)] else [];
    var live := if Truthy(p.liveUrl) then [Link(LiveDemo, p.liveUrl.value)] else [];
    var r := source + live;
    assert Truthy(p.githubUrl) ==> r[0].kind == SourceCode;
    assert Truthy(p.liveUrl) ==> r[|r| - 1].kind == LiveDemo;
    r
  }

  // ---------------------------------------------------------------------
  // The card
  // ---------------------------------------------------------------------

  /** The gallery grid has three columns on large screens. */
  const GridColumns: nat := 3

  /** The chip keys of a card: the technology names, in order. */
  function TechnologyKeys(ts: seq<Technology>): (keys: seq<string>)
    ensures |keys| == |ts|
    ensures forall i :: 0 <= i < |ts| ==> keys[i] == ts[i].name
  {
    seq(|ts|, i requires 0 <= i < |ts| => ts[i].name)
  }

  /** What a card shows, as decided from its project. */
  datatype CardView = CardView(
    key: string,
    columnSpan: nat,
    featuredBadge: bool,
    statusLabel: string,
    statusColor: string,
    statusBackground: string,
    icon: Icon,
    description: string,
    technologyKeys: seq<string>,
    highlights: Option<seq<string>>,
    links: seq<Link>)

  function RenderCard(p: Project): (v: CardView)
    ensures v.key == p.id
    ensures 1 <= v.columnSpan < GridColumns
    ensures v.columnSpan == 2 <==> p.featured
    ensures v.featuredBadge <==> p.featured
    ensures p.featured ==> v.description == p.longDescription
    ensures !p.featured ==> v.description == p.description
    ensures v.statusLabel == p.status.Label()
    ensures IsHexColorOf(v.statusColor, 6)
    ensures p.status == Completed ==> v.statusColor == Emerald
    ensures p.status == InProgress ==> v.statusColor == Amber
    ensures p.status == Planning ==> v.statusColor == Gray
    ensures v.statusBackground == v.statusColor + BackgroundAlpha
    ensures v.icon == MobileIcon <==> p.category == MobileDevelopment
    ensures v.icon == DatabaseIcon <==> p.category == FullStack
    ensures |v.technologyKeys| == |p.technologies|
    ensures forall i :: 0 <= i < |p.technologies| ==> v.technologyKeys[i] == p.technologies[i].name
    ensures v.highlights.Some? <==> p.featured
    ensures v.highlights.Some? ==> v.highlights.value == p.highlights[..Min(MaxHighlights, |p.highlights|)]
    ensures HasLink(v.links, SourceCode) <==> Truthy(p.githubUrl)
    ensures HasLink(v.links, LiveDemo) <==> Truthy(p.liveUrl)
    ensures v.links == CardLinks(p)
  {
    BgIsForegroundWithAlpha(p.status.Label());
    CardView(
      p.id,
      if p.featured then 2 else 1,
      p.featured,
      p.status.Label(),
      StatusColor(p.status.Label()),
      StatusBgColor(p.status.Label()),
      CategoryIcon(p.category),
      if p.featured then p.longDescription else p.description,
      TechnologyKeys(p.technologies),
      ShownHighlights(p),
      CardLinks(p))
  }

  /** The badge, the double-width span and the highlights list appear
      together or not at all. */
  lemma FeaturedMarkersAgree(p: Project)
    ensures RenderCard(p).featuredBadge <==> RenderCard(p).columnSpan == 2
    ensures RenderCard(p).featuredBadge <==> RenderCard(p).highlights.Some?
  {
  }

  // ---------------------------------------------------------------------
  // The gallery
  // ---------------------------------------------------------------------

  predicate DistinctKeys(keys: seq<string>) {
    forall i, j :: 0 <= i < j < |keys| ==> keys[i] != keys[j]
  }

  function Ids(ps: seq<Project>): (ids: seq<string>)
    ensures |ids| == |ps|
    ensures forall i :: 0 <= i < |ps| ==> ids[i] == ps[i].id
  {
    seq(|ps|, i requires 0 <= i < |ps| => ps[i].id)
  }

  /** The grid renders one card per project, in order, keyed by id. */
  function RenderGrid(ps: seq<Project>): (cards: seq<CardView>)
    ensures |cards| == |ps|
    ensures forall i :: 0 <= i < |ps| ==> cards[i] == RenderCard(ps[i])
    ensures DistinctKeys(Ids(ps)) ==> forall i, j :: 0 <= i < j < |cards| ==> cards[i].key != cards[j].key
  {
    seq(|ps|, i requires 0 <= i < |ps| => RenderCard(ps[i]))
  }

  // ---------------------------------------------------------------------
  // Gallery data
  // ---------------------------------------------------------------------

  const React: Technology := Technology("React", "#61DAFB")
  const TypeScript: Technology := Technology("TypeScript", "#3178C6")
  const JavaScript: Technology := Technology("JavaScript", "#F7DF1E")
  const Html: Technology := Technology("HTML5", "#E34F26")
  const Css: Technology := Technology("CSS3", "#1572B6")
  const Tailwind: Technology := Technology("Tailwind CSS", "#06B6D4")
  const Bootstrap: Technology := Technology("Bootstrap", "#7952B3")
  const NextJs: Technology := Technology("Next.js", "#000000")
  const NodeJs: Technology := Technology("Node.js", "#339933")
  const Flutter: Technology := Technology("Flutter", "#02569B")
  const Dart: Technology := Technology("Dart", "#0175C2")
  const Laravel: Technology := Technology("Laravel", "#FF2D20")
  const Php: Technology := Technology("PHP", "#777BB4")
  const MySql: Technology := Technology("MySQL", "#4479A1")

  const Portfolio2025: Project := Project(
    "portfolio-2025",
    "Portfolio Website 2025",
    "Website portfolio modern dengan React, TypeScript, dan animasi interaktif menggunakan Framer Motion.",
    "Website portfolio pribadi yang dibangun dengan teknologi modern untuk menampilkan proyek-proyek dan kemampuan saya. Dilengkapi dengan animasi yang halus, desain responsif, dan performa yang optimal.",
    "src/assets/img/project-port2025.png",
    [React, TypeScript, Tailwind],
    WebDevelopment,
    Completed,
    true,
    Some("https://github.com/danaaraga/2025portfolio"),
    Some("https://danaraga-portfolio.vercel.app"),
    "Juli 2025",
    ["Responsive design untuk semua perangkat",
     "Animasi interaktif dengan Framer Motion",
     "Optimasi performa dan SEO",
     "Contact form dengan EmailJS"])

  const Portfolio2024: Project := Project(
    "portfolio-2024",
    "Portfolio Website 2024",
    "Website portfolio dengan Laravel dan Bootstrap, menampilkan proyek dan pengalaman saya.",
    "Tugas sekolah kelas 11 yang dibuat dengan Laravel dan Bootstrap. Menampilkan proyek-proyek yang telah saya kerjakan, dilengkapi dengan fitur admin untuk mengelola konten.",
    "src/assets/img/project-port2024.png",
    [Laravel, Html, Css, Bootstrap],
    WebDevelopment,
    Completed,
    false,
    None,
    Some("https://danaraga.kuadratdev.com"),
    "Oktober 2024",
    ["Dashboard admin untuk mengelola konten",
     "Login dan register dengan Laravel Breeze",
     "Responsive design dengan Bootstrap"])

  const BblaraPos: Project := Project(
    "bblara-pos",
    "Bblar'A POS",
    "Sistem kasir dan manajemen stok barang mentah dengan Laravel untuk mengelola Kedai Kopi dan Teh",
    "Aplikasi web untuk mengelola Kasir dan Manajemen Inventori di Bblar'A Coffee and ThaiTea. Dilengkapi dengan dashboard admin dengan role berbeda.",
    "src/assets/img/project-bblara.png",
    [Laravel, Php, MySql, Tailwind],
    FullStack,
    Completed,
    true,
    Some("https://github.com/rhelzz/bblara-cashier"),
    Some("https://bblara-cashier.kuadrattech.my.id"),
    "Agustus 2025",
    ["Multi-user authentication",
     "CRUD operations untuk semua entitas",
     "Generate laporan to Excel",
     "Role-based access control"])

  const ProjectsData: seq<Project> := [Portfolio2025, Portfolio2024, BblaraPos]

  /** The gallery's ids are usable as list keys. */
  lemma ProjectIdsAreDistinct()
    ensures DistinctKeys(Ids(ProjectsData))
  {
    var ids := Ids(ProjectsData);
    assert ids == ["portfolio-2025", "portfolio-2024", "bblara-pos"];
    assert ids[0] != ids[1] by { assert ids[0][13] != ids[1][13]; }
    assert ids[0] != ids[2] by { assert ids[0][0] != ids[2][0]; }
    assert ids[1] != ids[2] by { assert ids[1][0] != ids[2][0]; }
  }

  /** Within each card the technology names are usable as chip keys. */
  lemma TechnologyKeysAreDistinct(i: nat)
    requires i < |ProjectsData|
    ensures DistinctKeys(TechnologyKeys(ProjectsData[i].technologies))
  {
  }
}
