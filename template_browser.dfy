/**
 * The template browser (components/editor/TemplateBrowser.tsx): a fixed
 * catalogue of journal page templates and the filter the browser shows,
 * by category and by a case-insensitive substring search over the name and
 * the description.
 */
module TemplateBrowser {
  import opened Wrappers
  import opened Sequences

  datatype Template = Template(id: string, name: string, category: string, thumbnail: string,
                               description: string, isPremium: bool)

  datatype Category = Category(id: string, name: string)

  /** The category tabs; "all" is the one that does not filter. */
  const AllCategories: string := "all"

  const Categories: seq<Category> := [
    Category("all", "All Templates"),
    Category("monthly", "Monthly"),
    Category("weekly", "Weekly"),
    Category("habit", "Habit Trackers"),
    Category("mood", "Mood Trackers"),
    Category("collections", "Collections"),
    Category("grids", "Grids & Tables")
  ]

  const Templates: seq<Template> := [
    Template("m1", "Classic Monthly", "monthly", "📅", "Traditional calendar grid with notes section", false),
    Template("m2", "Minimal Monthly", "monthly", "📆", "Clean and simple monthly overview", false),
    Template("m3", "Vertical Monthly", "monthly", "🗓️", "Week-by-week vertical layout", true),
    Template("m4", "Hobonichi Style", "monthly", "📔", "Inspired by Hobonichi Techo", true),
    Template("w1", "Horizontal Weekly", "weekly", "↔️", "Days arranged horizontally", false),
    Template("w2", "Vertical Weekly", "weekly", "↕️", "Days arranged vertically", false),
    Template("w3", "Dutch Door", "weekly", "🚪", "Folded sections for flexibility", true),
    Template("w4", "Rolling Weekly", "weekly", "🔄", "Continuous 7-day view", true),
    Template("h1", "Simple Tracker", "habit", "✓", "Basic grid for daily habits", false),
    Template("h2", "Circular Tracker", "habit", "◯", "Radial habit wheel", false),
    Template("h3", "Year in Pixels", "habit", "▦", "Full year color-coded tracker", true),
    Template("h4", "Weekly Habit", "habit", "📊", "Week-focused habit tracking", false),
    Template("mo1", "Monthly Mood", "mood", "😊", "Track mood throughout the month", false),
    Template("mo2", "Mood Mandala", "mood", "☸️", "Beautiful mandala mood tracker", true),
    Template("mo3", "Weather Mood", "mood", "🌤️", "Weather-inspired mood icons", false),
    Template("mo4", "Gradient Mood", "mood", "🎨", "Color gradient mood scale", true),
    Template("c1", "Books to Read", "collections", "📚", "Reading list with progress", false),
    Template("c2", "Movies Watched", "collections", "🎬", "Film tracker with ratings", false),
    Template("c3", "Recipe Collection", "collections", "👨‍🍳", "Meal planning and recipes", false),
    Template("c4", "Travel Log", "collections", "✈️", "Places visited and memories", true),
    Template("c5", "Gratitude Log", "collections", "🙏", "Daily gratitude entries", false),
    Template("c6", "Sleep Tracker", "collections", "😴", "Monitor sleep patterns", false),
    Template("g1", "Simple Grid", "grids", "▢", "Basic customizable grid", false),
    Template("g2", "Weekly Schedule", "grids", "📋", "Time-based weekly grid", false),
    Template("g3", "Project Planner", "grids", "📐", "Project breakdown grid", true),
    Template("g4", "Finance Tracker", "grids", "💰", "Budget and expense table", true)
  ]

  /** The tab whose id is `category`, if any. */
  function TabOf(category: string): (r: Option<nat>)
    ensures r.Some? ==> r.value < |Categories| && Categories[r.value].id == category
    ensures r.None? ==> forall k :: 0 <= k < |Categories| ==> Categories[k].id != category
  {
    FirstTab(category, 0)
  }

  function FirstTab(category: string, k: nat): (r: Option<nat>)
    requires k <= |Categories|
    ensures r.Some? ==> k <= r.value < |Categories| && Categories[r.value].id == category
    ensures r.None? ==> forall j :: k <= j < |Categories| ==> Categories[j].id != category
    decreases |Categories| - k
  {
    if k == |Categories| then None
    else if Categories[k].id == category then Some(k)
    else FirstTab(category, k + 1)
  }

  /**
   * The "all" tab comes first, and every catalogue entry belongs to one of
   * the other tabs, so each template shows under "all" and under its own tab.
   */
  lemma EveryTemplateHasATab()
    ensures Categories[0].id == AllCategories
    ensures forall i :: 0 <= i < |Templates| ==>
              TabOf(Templates[i].category).Some? && 0 < TabOf(Templates[i].category).value
  {
    forall i | 0 <= i < |Templates|
      ensures Templates[i].category in TemplateCategories
    {
      CatalogueUsesSixCategories(i);
    }
    TabsOfTemplateCategories();
  }

  const TemplateCategories: set<string> := {"monthly", "weekly", "habit", "mood", "collections", "grids"}

  lemma CatalogueUsesSixCategories(i: nat)
    requires i < |Templates|
    ensures Templates[i].category in TemplateCategories
  {
  }

  lemma TabsOfTemplateCategories()
    ensures forall c :: c in TemplateCategories ==> TabOf(c).Some? && 0 < TabOf(c).value
  {
    assert TabOf("monthly") == Some(1);
    assert TabOf("weekly") == Some(2);
    assert TabOf("habit") == Some(3);
    assert TabOf("mood") == Some(4);
    assert TabOf("collections") == Some(5);
    assert TabOf("grids") == Some(6);
  }

  predicate IsUpper(c: char)
  {
    'A' <= c <= 'Z'
  }

  /** Lower-casing of one character (ASCII letters). */
  function LowerChar(c: char): (d: char)
    ensures !IsUpper(d)
    ensures IsUpper(c) ==> d as int - c as int == 'a' as int - 'A' as int
    ensures !IsUpper(c) ==> d == c
  {
    if IsUpper(c) then (c as int + ('a' as int - 'A' as int)) as char else c
  }

  /** `toLowerCase()`. */
  function ToLower(s: string): (r: string)
    ensures |r| == |s|
    ensures forall i :: 0 <= i < |s| ==> r[i] == LowerChar(s[i])
  {
    seq(|s|, i requires 0 <= i < |s| => LowerChar(s[i]))
  }

  lemma ToLowerIsIdempotent(s: string)
    ensures ToLower(ToLower(s)) == ToLower(s)
  {
  }

  /** `needle` occurs in `hay` starting at index i. */
  ghost predicate OccursAt(hay: string, needle: string, i: int)
  {
    0 <= i && i + |needle| <= |hay| && hay[i..i + |needle|] == needle
  }

  /** `hay.includes(needle)`: some position of `hay` starts an occurrence of `needle`. */
  function Includes(hay: string, needle: string): (b: bool)
    ensures b <==> exists i :: OccursAt(hay, needle, i)
    decreases |hay|
  {
    if |hay| < |needle| then
      assert forall i :: !OccursAt(hay, needle, i);
      false
    else if needle <= hay then
      assert OccursAt(hay, needle, 0);
      true
    else
      var b := Includes(hay[1..], needle);
      IncludesShifts(hay, needle);
      b
  }

  /** When there is no occurrence at 0, the occurrences in `hay` are those of its tail, shifted by one. */
  lemma IncludesShifts(hay: string, needle: string)
    requires |needle| <= |hay| && !(needle <= hay)
    ensures (exists i :: OccursAt(hay, needle, i)) <==> (exists i :: OccursAt(hay[1..], needle, i))
  {
    assert hay[..|needle|] != needle;
    if i :| OccursAt(hay, needle, i) {
      assert i != 0;
      assert hay[1..][i - 1..i - 1 + |needle|] == hay[i..i + |needle|];
      assert OccursAt(hay[1..], needle, i - 1);
    }
    if i :| OccursAt(hay[1..], needle, i) {
      assert hay[1..][i..i + |needle|] == hay[i + 1..i + 1 + |needle|];
      assert OccursAt(hay, needle, i + 1);
    }
  }

  lemma IncludesEmpty(hay: string)
    ensures Includes(hay, "")
  {
    assert OccursAt(hay, "", 0);
  }

  predicate MatchesCategory(t: Template, activeCategory: string)
  {
    activeCategory == AllCategories || t.category == activeCategory
  }

  predicate MatchesSearch(t: Template, query: string)
  {
    Includes(ToLower(t.name), ToLower(query)) || Includes(ToLower(t.description), ToLower(query))
  }

  /**
   * filteredTemplates: the catalogue entries in the active category (any
   * category for "all") whose name or description contains the query,
   * ignoring case, in catalogue order.
   */
  function FilteredTemplates(activeCategory: string, query: string): (r: seq<Template>)
    ensures IsSubsequence(r, Templates)
    ensures forall t :: t in r <==> t in Templates && MatchesCategory(t, activeCategory) && MatchesSearch(t, query)
    ensures activeCategory != AllCategories ==> forall t :: t in r ==> t.category == activeCategory
  {
    Filter(Templates, (t: Template) => MatchesCategory(t, activeCategory) && MatchesSearch(t, query))
  }

  /** Queries that agree once lower-cased give the same templates. */
  lemma SearchIsCaseInsensitive(activeCategory: string, query: string, query': string)
    requires ToLower(query) == ToLower(query')
    ensures FilteredTemplates(activeCategory, query) == FilteredTemplates(activeCategory, query')
  {
    FilterAgrees(Templates,
                 (t: Template) => MatchesCategory(t, activeCategory) && MatchesSearch(t, query),
                 (t: Template) => MatchesCategory(t, activeCategory) && MatchesSearch(t, query'));
  }

  /** Every template matches the empty query. */
  lemma EmptyQueryMatchesAll(t: Template)
    ensures MatchesSearch(t, "")
  {
    assert ToLower("") == "";
    IncludesEmpty(ToLower(t.name));
  }

  /** With an empty query and the "all" tab, any list of templates passes the filter unchanged. */
  lemma EmptySearchKeepsAll(ts: seq<Template>)
    ensures Filter(ts, (t: Template) => MatchesCategory(t, AllCategories) && MatchesSearch(t, "")) == ts
  {
    forall i | 0 <= i < |ts|
      ensures MatchesSearch(ts[i], "")
    {
      EmptyQueryMatchesAll(ts[i]);
    }
    FilterKeepsAll(ts, (t: Template) => MatchesCategory(t, AllCategories) && MatchesSearch(t, ""));
  }

  /** The browser as it opens: all 26 templates, in catalogue order. */
  lemma UnfilteredShowsAll()
    ensures FilteredTemplates(AllCategories, "") == Templates
    ensures |FilteredTemplates(AllCategories, "")| == 26
  {
    EmptySearchKeepsAll(Templates);
  }

  /** The first four catalogue entries, and only they, are monthly templates. */
  lemma MonthlyComeFirst()
    ensures forall i :: 0 <= i < 4 ==> Templates[i].category == "monthly"
    ensures forall i :: 4 <= i < |Templates| ==> Templates[i].category != "monthly"
  {
  }

  /**
   * With an empty query, a list whose first n entries are in the active
   * category and whose other entries are not is filtered down to those n.
   */
  lemma {:induction false} EmptySearchKeepsCategoryPrefix(ts: seq<Template>, n: nat, category: string)
    requires category != AllCategories && n <= |ts|
    requires forall i :: 0 <= i < n ==> ts[i].category == category
    requires forall i :: n <= i < |ts| ==> ts[i].category != category
    ensures Filter(ts, (t: Template) => MatchesCategory(t, category) && MatchesSearch(t, "")) == ts[..n]
  {
    forall i | 0 <= i < n
      ensures MatchesSearch(ts[i], "")
    {
      EmptyQueryMatchesAll(ts[i]);
    }
    FilterPrefix(ts, n, (t: Template) => MatchesCategory(t, category) && MatchesSearch(t, ""));
  }

  /** The monthly tab with an empty search: exactly the four monthly templates. */
  lemma MonthlyUnfiltered()
    ensures FilteredTemplates("monthly", "") == Templates[..4]
  {
    MonthlyComeFirst();
    EmptySearchKeepsCategoryPrefix(Templates, 4, "monthly");
  }
}
