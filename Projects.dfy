/**
 * The projects section: the project list and its mapping to scroll-stack
 * cards (badge, title, subtitle, background choice and action links).
 *
 * Optional string fields are `Option<string>`; the source tests them for
 * JavaScript truthiness, so an empty string counts as absent.
 */
module Projects {
  import opened Wrappers

  /** One portfolio project. */
  datatype Project = Project(
    title: string,
    tagline: string,
    description: string,
    tech: seq<string>,
    liveUrl: Option<string>,
    githubUrl: Option<string>,
    previewUrl: Option<string>)

  /** A card's background: a live iframe preview, or the dark abstract gradient at a slot of the gradient list. */
  datatype Background = SitePreview(url: string) | DarkAbstract(gradientSlot: int)

  /** What the card shows, apart from markup. */
  datatype Card = Card(
    title: string,
    subtitle: string,
    badge: Option<string>,
    background: Background,
    showsLiveDemo: bool,
    showsGitHub: bool)

  /** Number of gradients `DarkAbstractBg` chooses from. */
  const GradientCount: nat := 4

  /** JavaScript truthiness of an optional string: present and non-empty. */
  predicate Truthy(s: Option<string>)
  {
    s.Some? && s.value != ""
  }

  /** The badge: "Live" for a live site, else "Open Source" for a public repository, else none. */
  function Badge(p: Project): (b: Option<string>)
    ensures b == Some("Live") <==> Truthy(p.liveUrl)
    ensures b == Some("Open Source") <==> !Truthy(p.liveUrl) && Truthy(p.githubUrl)
    ensures b == None <==> !Truthy(p.liveUrl) && !Truthy(p.githubUrl)
  {
    if Truthy(p.liveUrl) then Some("Live")
    else if Truthy(p.githubUrl) then Some("Open Source")
    else None
  }

  /** JavaScript's `%`: the remainder takes the sign of the dividend. */
  function JsRem(a: int, b: int): (r: int)
    requires b > 0
    ensures -b < r < b
    ensures a >= 0 ==> r == a % b
    ensures a <= 0 ==> r <= 0
  {
    if a >= 0 then a % b else -((-a) % b)
  }

  /** JavaScript's `%` is odd in its dividend: negating the dividend negates the remainder. */
  lemma JsRemOdd(a: int, b: int)
    requires b > 0
    ensures JsRem(-a, b) == -JsRem(a, b)
  {
  }

  /**
   * The slot `DarkAbstractBg` reads as written: it is handed `index - 3`
   * and reduces it with JavaScript's `%`, so indexes below 3 give a
   * negative slot.
   */
  function GradientSlotAsWritten(index: int): (slot: int)
    ensures -(GradientCount as int) < slot < GradientCount as int
    ensures index >= 3 ==> 0 <= slot
  {
    JsRem(index - 3, GradientCount)
  }

  /** `gradients[slot]`: a gradient for slots 0..3, `undefined` for any other. */
  function GradientAt(slot: int): (g: Option<nat>)
    ensures g.Some? <==> 0 <= slot < GradientCount
    ensures g.Some? ==> g.value == slot
  {
    if 0 <= slot < GradientCount then Some(slot) else None
  }

  /**
   * The intended slot: the same `index - 3` rotation, reduced so that it
   * always names one of the four gradients.
   */
  function GradientSlot(index: int): (slot: nat)
    ensures slot < GradientCount
    ensures GradientAt(slot) == Some(slot)
    ensures index >= 3 ==> slot == GradientSlotAsWritten(index)
  {
    (index - 3) % GradientCount
  }

  /** The card fields that do not depend on the gradient slot, with the given dark background. */
  function CardWith(p: Project, dark: Background): Card
  {
    Card(
      p.title,
      p.tagline,
      Badge(p),
      if Truthy(p.previewUrl) then SitePreview(p.previewUrl.value) else dark,
      Truthy(p.liveUrl),
      Truthy(p.githubUrl))
  }

  /**
   * Card `index` for its project, as written: a project without a preview
   * gets the dark background at the as-written slot, which names a
   * gradient only from index 3 on.
   */
  function ToCard(p: Project, index: nat): (c: Card)
    ensures c.title == p.title && c.subtitle == p.tagline
    ensures c.badge == Badge(p)
    ensures c.background.SitePreview? <==> Truthy(p.previewUrl)
    ensures c.background.SitePreview? ==> c.background.url == p.previewUrl.value
    ensures c.background.DarkAbstract? ==> c.background.gradientSlot == GradientSlotAsWritten(index)
    ensures c.background.DarkAbstract? ==> (GradientAt(c.background.gradientSlot).Some? <==> index >= 3)
    ensures c.showsLiveDemo <==> Truthy(p.liveUrl)
    ensures c.showsGitHub <==> Truthy(p.githubUrl)
  {
    CardWith(p, DarkAbstract(GradientSlotAsWritten(index)))
  }

  /**
   * Card `index` with the corrected slot: every dark background names a
   * gradient, and the card differs from the as-written one at most in the
   * gradient of a preview-less card before index 3.
   */
  function ToCardFixed(p: Project, index: nat): (c: Card)
    ensures c.background.DarkAbstract? ==> GradientAt(c.background.gradientSlot).Some?
    ensures index >= 3 || Truthy(p.previewUrl) ==> c == ToCard(p, index)
    ensures c.title == ToCard(p, index).title && c.subtitle == ToCard(p, index).subtitle
    ensures c.badge == ToCard(p, index).badge && c.background.DarkAbstract? == ToCard(p, index).background.DarkAbstract?
    ensures c.showsLiveDemo == ToCard(p, index).showsLiveDemo && c.showsGitHub == ToCard(p, index).showsGitHub
  {
    CardWith(p, DarkAbstract(GradientSlot(index)))
  }

  /** `projects.map(...)`: one card per project, in order. */
  function ScrollStackCards(projects: seq<Project>): (cards: seq<Card>)
    ensures |cards| == |projects|
    ensures forall i :: 0 <= i < |projects| ==>
      cards[i].title == projects[i].title && cards[i].subtitle == projects[i].tagline
    ensures forall i :: 0 <= i < |projects| ==> cards[i] == ToCard(projects[i], i)
  {
    seq(|projects|, i requires 0 <= i < |projects| => ToCard(projects[i], i))
  }

  /** The cards with the corrected gradient slot: one per project, in order. */
  function ScrollStackCardsFixed(projects: seq<Project>): (cards: seq<Card>)
    ensures |cards| == |projects|
    ensures forall i :: 0 <= i < |projects| ==> cards[i] == ToCardFixed(projects[i], i)
    ensures forall i :: 0 <= i < |projects| && cards[i].background.DarkAbstract? ==>
      GradientAt(cards[i].background.gradientSlot).Some?
  {
    seq(|projects|, i requires 0 <= i < |projects| => ToCardFixed(projects[i], i))
  }

  /** A live project is badged "Live" even when it also has a repository. */
  lemma LiveBadgeWins(p: Project)
    requires Truthy(p.liveUrl) && Truthy(p.githubUrl)
    ensures Badge(p) == Some("Live")
    ensures ToCard(p, 0).showsLiveDemo && ToCard(p, 0).showsGitHub
  {
  }

  /** The portfolio's seven projects, in display order. */
  const PortfolioProjects: seq<Project> := [
    Project("Scotia Delights", "Full-Stack E-Commerce Platform",
      "Production-ready e-commerce with secure payment processing, real-time cart sync, and admin analytics. Features automated PDF invoices and enterprise security.",
      ["Next.js", "TypeScript", "Supabase", "Razorpay", "Tailwind", "Redis", "Sentry"],
      Some("https://www.scotiadelights.in/"), None, None),
    Project("Luxe", "Mid-Luxury E-Commerce Experience",
      "Conversion-optimized platform targeting mid-luxury market with sub-2.5s load times and premium UX.",
      ["Next.js 14", "TypeScript", "PostgreSQL", "Supabase", "Tailwind"],
      Some("https://luxar.vercel.app/"), None, Some("https://luxar.vercel.app/")),
    Project("CleanIQ", "AI-Powered Data Cleaning SaaS",
      "Intelligent data cleaning platform that auto-detects quality issues and applies one-click fixes for data analysts.",
      ["Next.js", "React", "TypeScript", "Tailwind", "Zustand"],
      Some("https://clean-ai-psi.vercel.app/"), None, Some("https://clean-ai-psi.vercel.app/")),
    Project("Retail Sales Analytics", "Enterprise Business Intelligence",
      "ETL and analytics pipeline processing 800K+ retail transactions for revenue optimization and customer segmentation.",
      ["Python", "Pandas", "NumPy", "MySQL", "Power BI", "DAX"],
      None, None, None),
    Project("Customer Behavior Analysis", "End-to-End Data Analytics",
      "Comprehensive customer behavior analysis revealing purchasing patterns, loyalty trends, and demographic insights.",
      ["Python", "SQL", "Power BI", "Pandas", "NumPy"],
      None, Some("https://github.com/DazedSaturn07/Customer_Behaviour_Analysis"), None),
    Project("Face Mask Recognition", "Real-Time Computer Vision",
      "Deep learning-powered application for real-time face mask detection and counting through live video feeds.",
      ["Python", "OpenCV", "TensorFlow", "Deep Learning"],
      None, Some("https://github.com/DazedSaturn07/Face_Mask_Recognition"), None),
    Project("Hybrid Dataset Cleaner", "Local ML-Powered Preprocessing",
      "Advanced hybrid ML system combining rule-based processing, classical ML, and deep learning for automated dataset cleaning.",
      ["Python", "Pandas", "Scikit-learn", "PyTorch", "PyOD"],
      None, Some("https://github.com/DazedSaturn07/DataCleaner"), None)
  ]

  /**
   * The portfolio's cards: the first three are badged "Live", the fourth
   * has no badge, the last three are "Open Source"; only the second and
   * third show a live preview.
   */
  lemma PortfolioCards()
    ensures var cards := ScrollStackCards(PortfolioProjects);
      && |cards| == 7
      && (forall i :: 0 <= i < 3 ==> cards[i].badge == Some("Live"))
      && cards[3].badge == None
      && (forall i :: 4 <= i < 7 ==> cards[i].badge == Some("Open Source"))
      && (forall i :: 0 <= i < 7 ==> (cards[i].background.SitePreview? <==> i == 1 || i == 2))
  {
    var cards := ScrollStackCards(PortfolioProjects);
    forall i | 0 <= i < 7
      ensures cards[i] == ToCard(PortfolioProjects[i], i)
    {
    }
  }

  /**
   * As written, the first project (whose preview is disabled) asks
   * `DarkAbstractBg` for slot -3, which names no gradient, so its card has
   * no gradient; the four non-live projects get slots 0..3, all distinct.
   */
  lemma FirstProjectGradientUndefined()
    ensures !Truthy(PortfolioProjects[0].previewUrl)
    ensures GradientSlotAsWritten(0) == -3
    ensures ScrollStackCards(PortfolioProjects)[0].background == DarkAbstract(-3)
    ensures GradientAt(ScrollStackCards(PortfolioProjects)[0].background.gradientSlot).None?
    ensures forall i :: 3 <= i < 7 ==> GradientSlotAsWritten(i) == i - 3
  {
    assert ScrollStackCards(PortfolioProjects)[0] == ToCard(PortfolioProjects[0], 0);
  }

  /**
   * With the corrected slot every dark card has a gradient, and the cards
   * the as-written slot served correctly keep the gradient they had.
   */
  lemma GradientSlotAlwaysDefined(index: int)
    ensures GradientAt(GradientSlot(index)).Some?
    ensures GradientAt(GradientSlotAsWritten(index)).Some? ==> GradientSlot(index) == GradientSlotAsWritten(index)
  {
  }

  /** With the corrected slot, the first project's card gets gradient 1 of the four. */
  lemma FirstProjectGradientFixed()
    ensures ScrollStackCardsFixed(PortfolioProjects)[0].background == DarkAbstract(1)
    ensures GradientAt(ScrollStackCardsFixed(PortfolioProjects)[0].background.gradientSlot) == Some(1)
  {
    assert ScrollStackCardsFixed(PortfolioProjects)[0] == ToCardFixed(PortfolioProjects[0], 0);
  }
}
