/** The integration-guide browser of
    src/components/Integrations/GuidesIntegrations.tsx: the tab filter, the
    statistics cards and the detail view. */
module GuidesIntegrations {
  import opened Wrappers
  import opened Seqs

  datatype Category = Setup | Integration | Advanced | Troubleshooting
  datatype Platform = Web | Mobile | Server | AllPlatforms
  datatype Difficulty = Beginner | Intermediate | Advanced

  function CategoryName(c: Category): string {
    match c
    case Setup => "setup"
    case Integration => "integration"
    case Advanced => "advanced"
    case Troubleshooting => "troubleshooting"
  }

  function PlatformName(p: Platform): string {
    match p
    case Web => "web"
    case Mobile => "mobile"
    case Server => "server"
    case AllPlatforms => "all"
  }

  /** A `Guide`; steps and code snippets are not part of this model. */
  datatype Guide = Guide(
    id: string, title: string, description: string, category: Category,
    platform: Platform, difficulty: Difficulty, estimatedTime: string,
    isCompleted: Option<bool>)

  /** `guide.isCompleted` read as a boolean: absent is false. */
  predicate IsCompleted(g: Guide) {
    g.isCompleted == Some(true)
  }

  /** The body of the `filteredGuides` callback. */
  predicate OnTab(activeTab: string, g: Guide) {
    if activeTab == "all" then true
    else if activeTab == "completed" then IsCompleted(g)
    else CategoryName(g.category) == activeTab || PlatformName(g.platform) == activeTab
  }

  /** `filteredGuides`: the guides shown under the active tab, in order. */
  function FilteredGuides(guides: seq<Guide>, activeTab: string): (r: seq<Guide>)
    ensures IsSubsequence(r, guides)
    ensures activeTab == "all" ==> r == guides
    ensures activeTab == "completed" ==> forall g :: g in r <==> g in guides && IsCompleted(g)
    ensures activeTab != "all" && activeTab != "completed" ==>
      forall g :: g in r <==> (g in guides
        && (CategoryName(g.category) == activeTab || PlatformName(g.platform) == activeTab))
    ensures forall g :: multiset(r)[g] == if OnTab(activeTab, g) then multiset(guides)[g] else 0
  {
    var p := (g: Guide) => OnTab(activeTab, g);
    FilterIsSubsequence(guides, p);
    FilterMultiset(guides, p);
    if activeTab == "all" then FilterKeepsAll(guides, p); Filter(guides, p)
    else Filter(guides, p)
  }

  /** A guide meant for every platform is not listed under the Web or Mobile
      tab: "all" names the tab that shows everything, not a platform. */
  lemma AllPlatformGuideNotOnPlatformTabs(guides: seq<Guide>, g: Guide)
    requires g in guides && g.platform == AllPlatforms
    ensures g !in FilteredGuides(guides, "web") && g !in FilteredGuides(guides, "mobile")
    ensures g in FilteredGuides(guides, "all")
  {
    assert !OnTab("web", g) && !OnTab("mobile", g);
    var web, mobile := FilteredGuides(guides, "web"), FilteredGuides(guides, "mobile");
    assert g !in web;
    assert g !in mobile;
  }

  /** The Completed card. */
  function CompletedCount(guides: seq<Guide>): (r: nat)
    ensures r <= |guides|
  {
    |Filter(guides, IsCompleted)|
  }

  /** The Completed card counts exactly the guides the Completed tab lists. */
  lemma CompletedCountMatchesTab(guides: seq<Guide>)
    ensures CompletedCount(guides) == |FilteredGuides(guides, "completed")|
  {
    FilterCongruent(guides, IsCompleted, (g: Guide) => OnTab("completed", g));
  }

  /** `guides.map(g => g.platform)`. */
  function PlatformsOf(guides: seq<Guide>): (r: seq<Platform>)
    ensures |r| == |guides|
    ensures forall i :: 0 <= i < |guides| ==> r[i] == guides[i].platform
  {
    if guides == [] then [] else [guides[0].platform] + PlatformsOf(guides[1..])
  }

  /** The Platforms card: `new Set(guides.map(g => g.platform)).size`. */
  function PlatformCount(guides: seq<Guide>): nat {
    |Elements(PlatformsOf(guides))|
  }

  /** The Platforms card counts distinct platforms: at most one per guide, at
      most the four platforms there are, and at least one when there is a guide. */
  lemma PlatformCountBounds(guides: seq<Guide>)
    ensures PlatformCount(guides) <= |guides| && PlatformCount(guides) <= 4
    ensures guides != [] ==> PlatformCount(guides) >= 1
  {
    var ps := PlatformsOf(guides);
    DistinctCountBound(ps);
    assert Elements(ps) <= {Web, Mobile, Server, AllPlatforms} by {
      forall x | x in Elements(ps) ensures x in {Web, Mobile, Server, AllPlatforms} {
        match x
        case Web =>
        case Mobile =>
        case Server =>
        case AllPlatforms =>
      }
    }
    SubsetCardinality(Elements(ps), {Web, Mobile, Server, AllPlatforms});
    if guides != [] {
      assert ps[0] in Elements(ps);
    }
  }

  lemma {:induction false} SubsetCardinality<T>(a: set<T>, b: set<T>)
    requires a <= b
    ensures |a| <= |b|
  {
    if a != {} {
      var x :| x in a;
      SubsetCardinality(a - {x}, b - {x});
    }
  }

  datatype View = GuideList | GuideDetail(guide: Guide)

  /** The component's early return: the detail view needs a truthy selected id
      that matches a guide; anything else, including Back's null, shows the list. */
  function CurrentView(guides: seq<Guide>, selectedGuide: Option<string>): (r: View)
    ensures r.GuideDetail? <==>
      selectedGuide.Some? && selectedGuide.value != "" && exists g :: g in guides && g.id == selectedGuide.value
    ensures r.GuideDetail? ==> r.guide in guides && r.guide.id == selectedGuide.value
    ensures r.GuideDetail? ==> exists i :: (0 <= i < |guides| && guides[i] == r.guide
      && forall j :: 0 <= j < i ==> guides[j].id != selectedGuide.value)
    ensures selectedGuide == None ==> r == GuideList
  {
    if selectedGuide.Some? && selectedGuide.value != "" then
      match Find(guides, (g: Guide) => g.id == selectedGuide.value)
      case Some(g) => GuideDetail(g)
      case None => GuideList
    else GuideList
  }

  /** With unique ids, clicking a card opens that very guide. */
  lemma SelectOpensClickedGuide(guides: seq<Guide>, i: nat)
    requires i < |guides| && guides[i].id != ""
    requires forall j, k :: 0 <= j < k < |guides| ==> guides[j].id != guides[k].id
    ensures CurrentView(guides, Some(guides[i].id)) == GuideDetail(guides[i])
  {
    var p := (g: Guide) => g.id == guides[i].id;
    assert guides[i] in guides && p(guides[i]);
    var r := Find(guides, p);
    var k :| 0 <= k < |guides| && guides[k] == r.value && forall j :: 0 <= j < k ==> guides[j].id != guides[i].id;
    assert k == i;
  }
}
