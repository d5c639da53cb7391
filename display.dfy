/** Values the App component derives from its state for display: platform icons, scores, the active genre. */
module Display {
  import opened Catalog

  /** The six `react-icons` components of the icon table, as abstract tokens. */
  datatype Glyph = Windows | PlayStation | Xbox | Apple | Linux | Steam

  /** The `platformIcons` table: platform slug to glyph. */
  const PlatformIcons: map<string, Glyph> := map[
    "pc" := Windows,
    "playstation" := PlayStation,
    "xbox" := Xbox,
    "mac" := Apple,
    "linux" := Linux,
    "steam" := Steam]

  /** What one platform cell of a game card shows. */
  datatype Label = Icon(glyph: Glyph) | Text(text: string)

  /** The slug under which the icon table registers a glyph. */
  function SlugOf(g: Glyph): string {
    match g
    case Windows => "pc"
    case PlayStation => "playstation"
    case Xbox => "xbox"
    case Apple => "mac"
    case Linux => "linux"
    case Steam => "steam"
  }

  /** The icon table is a bijection between its six slugs and the six glyphs. */
  lemma IconTableRoundTrip()
    ensures PlatformIcons.Keys == {"pc", "playstation", "xbox", "mac", "linux", "steam"}
    ensures forall g: Glyph :: SlugOf(g) in PlatformIcons && PlatformIcons[SlugOf(g)] == g
    ensures forall s :: s in PlatformIcons ==> SlugOf(PlatformIcons[s]) == s
  {
  }

  /**
   * The cell for one platform: its glyph when the slug is registered, its name otherwise.
   * A registered slug is an own key of the table (see PlatformCellAsWritten for the
   * property lookup the component actually performs).
   */
  function PlatformLabel(p: Platform): (l: Label)
    ensures l.Icon? <==> p.slug in {"pc", "playstation", "xbox", "mac", "linux", "steam"}
    ensures l.Icon? ==> SlugOf(l.glyph) == p.slug
    ensures l.Text? ==> l.text == p.name
  {
    IconTableRoundTrip();
    if p.slug in PlatformIcons then Icon(PlatformIcons[p.slug]) else Text(p.name)
  }

  /** The cells of a platform row, one per entry, in order. */
  function PlatformLabels(ps: seq<Platform>): (row: seq<Label>)
    ensures |row| == |ps|
    ensures forall i :: 0 <= i < |ps| ==> row[i] == PlatformLabel(ps[i])
  {
    if ps == [] then [] else [PlatformLabel(ps[0])] + PlatformLabels(ps[1..])
  }

  /** The platform row of a game card; a game without `parent_platforms` shows an empty row. */
  function PlatformRow(g: Game): (row: seq<Label>)
    ensures g.parentPlatforms.None? ==> row == []
    ensures g.parentPlatforms.Some? ==> |row| == |g.parentPlatforms.value|
    ensures g.parentPlatforms.Some? ==>
      forall i :: 0 <= i < |row| ==> row[i] == PlatformLabel(g.parentPlatforms.value[i])
  {
    match g.parentPlatforms
    case None => []
    case Some(ps) => PlatformLabels(ps)
  }

  /** What the score badge of a game card shows. */
  datatype Score = Metacritic(value: int) | NotAvailable

  /** The score badge: the Metacritic score when present and non-zero (both are falsy), else "N/A". */
  function ScoreBadge(metacritic: Option<int>): (s: Score)
    ensures s.Metacritic? <==> metacritic.Some? && metacritic.value != 0
    ensures s.Metacritic? ==> metacritic == Some(s.value)
  {
    match metacritic
    case Some(m) => if m != 0 then Metacritic(m) else NotAvailable
    case None => NotAvailable
  }

  /** Whether a sidebar entry carries the "active" marker: strict equality of the selection and the id. */
  function IsActive(selected: Option<int>, g: Genre): (active: bool)
    ensures active <==> selected.Some? && selected.value == g.id
  {
    selected == Some(g.id)
  }

  datatype SidebarEntry = SidebarEntry(genre: Genre, active: bool)

  /** The sidebar: one entry per genre, in order, each marked active or not. */
  function Sidebar(genres: seq<Genre>, selected: Option<int>): (entries: seq<SidebarEntry>)
    ensures |entries| == |genres|
    ensures forall i :: 0 <= i < |genres| ==> entries[i].genre == genres[i]
    ensures forall i :: 0 <= i < |genres| ==>
      (entries[i].active <==> selected.Some? && selected.value == genres[i].id)
  {
    if genres == [] then []
    else [SidebarEntry(genres[0], IsActive(selected, genres[0]))] + Sidebar(genres[1..], selected)
  }

  function ActiveCount(entries: seq<SidebarEntry>): nat {
    if entries == [] then 0 else (if entries[0].active then 1 else 0) + ActiveCount(entries[1..])
  }

  ghost predicate DistinctIds(genres: seq<Genre>) {
    forall i, j :: 0 <= i < j < |genres| ==> genres[i].id != genres[j].id
  }

  predicate ListsId(genres: seq<Genre>, id: int) {
    exists i :: 0 <= i < |genres| && genres[i].id == id
  }

  /**
   * When the catalog's genre ids are distinct, the sidebar marks at most one genre as active,
   * and exactly one precisely when the selected id is among the listed genres.
   */
  lemma {:induction false} AtMostOneActive(genres: seq<Genre>, selected: Option<int>)
    requires DistinctIds(genres)
    ensures ActiveCount(Sidebar(genres, selected)) <= 1
    ensures ActiveCount(Sidebar(genres, selected)) == 1 <==> selected.Some? && ListsId(genres, selected.value)
  {
    if genres != [] {
      var rest := genres[1..];
      assert DistinctIds(rest) by {
        forall i, j | 0 <= i < j < |rest| ensures rest[i].id != rest[j].id {
          assert rest[i] == genres[i + 1] && rest[j] == genres[j + 1];
        }
      }
      AtMostOneActive(rest, selected);
      assert Sidebar(genres, selected)[1..] == Sidebar(rest, selected);
      if selected.Some? && ListsId(genres, selected.value) {
        var i :| 0 <= i < |genres| && genres[i].id == selected.value;
        if i > 0 {
          assert rest[i - 1] == genres[i];
        }
      }
      if selected.Some? && ListsId(rest, selected.value) {
        var j :| 0 <= j < |rest| && rest[j].id == selected.value;
        assert genres[j + 1] == rest[j];
      }
    }
  }

  /** Keys every plain JavaScript object inherits from `Object.prototype`. */
  const InheritedKeys: set<string> := {
    "constructor", "hasOwnProperty", "isPrototypeOf", "propertyIsEnumerable",
    "toLocaleString", "toString", "valueOf", "__proto__",
    "__defineGetter__", "__defineSetter__", "__lookupGetter__", "__lookupSetter__"}

  /** Result of the JavaScript property access `platformIcons[slug]`. */
  datatype Property = OwnGlyph(glyph: Glyph) | InheritedMember(key: string) | Undefined

  function IconProperty(slug: string): (v: Property)
    ensures v.OwnGlyph? <==> slug in PlatformIcons
    ensures v.OwnGlyph? ==> v.glyph == PlatformIcons[slug]
    ensures v.InheritedMember? ==> v.key == slug && slug in InheritedKeys
    ensures v.Undefined? <==> slug !in PlatformIcons && slug !in InheritedKeys
  {
    if slug in PlatformIcons then OwnGlyph(PlatformIcons[slug])
    else if slug in InheritedKeys then InheritedMember(slug)
    else Undefined
  }

  /**
   * A platform cell as the component renders it: a label, or an inherited prototype member.
   * `InheritedValue` stands for both outcomes of rendering such a member: a function child
   * renders as an empty cell, and `Object.prototype` (for `__proto__`) makes the render throw.
   */
  datatype Cell = Shown(cell: Label) | InheritedValue(key: string)

  /**
   * `platformIcons[p.platform.slug] || p.platform.name` as written: every property found,
   * own or inherited, is truthy, so only a missing one falls back to the name.
   */
  function PlatformCellAsWritten(p: Platform): (c: Cell)
    ensures c.InheritedValue? <==> p.slug in InheritedKeys && p.slug !in PlatformIcons
    ensures c.InheritedValue? ==> c.key == p.slug
  {
    match IconProperty(p.slug)
    case OwnGlyph(g) => Shown(Icon(g))
    case InheritedMember(k) => InheritedValue(k)
    case Undefined => Shown(Text(p.name))
  }

  /** A slug naming an inherited member reaches neither a glyph nor the platform's name. */
  lemma InheritedSlugSkipsNameFallback()
    ensures PlatformCellAsWritten(Platform("constructor", "Constructor")) == InheritedValue("constructor")
    ensures PlatformLabel(Platform("constructor", "Constructor")) == Text("Constructor")
  {
  }

  /** For every other slug the lookup as written and PlatformLabel agree. */
  lemma AsWrittenAgreesOutsideInheritedKeys(p: Platform)
    requires p.slug !in InheritedKeys
    ensures PlatformCellAsWritten(p) == Shown(PlatformLabel(p))
  {
  }
}
