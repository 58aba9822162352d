/**
 * The tech-stack treemap: which categories it draws, the colour and header
 * count of each, and for each tile the font tier, the truncated name and which
 * of icon, name and value it draws. Pixel sizes are reals; the character budget
 * of a tile name, which the page derives from them in floating point, is an
 * integer input.
 */
module TechStackTreemap {
  import opened Wrappers
  import Js

  /** The categories the treemap draws, by name. */
  const MainCategories: seq<string> := ["프론트엔드", "백엔드", "데이터베이스", "클라우드/인프라", "모바일"]

  /** The fallback category, which has a colour but is never drawn. */
  const Other: string := "기타"

  const CategoryColors: map<string, string> := map[
    "프론트엔드" := "#475569",
    "백엔드" := "#64748b",
    "데이터베이스" := "#71717a",
    "클라우드/인프라" := "#78716c",
    "모바일" := "#6b7280",
    Other := "#52525b"
  ]

  /** The technologies that have an icon. */
  const TechIcons: set<string> := {
    "React", "Vue", "Angular", "Next.js", "TypeScript", "JavaScript", "HTML", "CSS",
    "Tailwind", "Tailwind CSS", "Node.js", "Express", "Java", "Spring", "Python", "Django",
    "FastAPI", "Go", "Kotlin", "PostgreSQL", "MySQL", "MongoDB", "Redis", "Oracle", "AWS",
    "Docker", "Kubernetes", "Git", "GitHub", "Jenkins", "Nginx", "React Native", "Flutter",
    "Swift", "Android"
  }

  /** One technology: its name (possibly missing) and its weight. */
  datatype Leaf = Leaf(name: Option<string>, value: int)

  /** A category of technologies. */
  datatype Category = Category(name: string, children: seq<Leaf>)

  // ---------------------------------------------------------------------------
  // Categories

  predicate IsMain(c: Category) {
    c.name in MainCategories
  }

  /** `data.filter(cat => MAIN_CATEGORIES.includes(cat.name))`. */
  function FilterMain(data: seq<Category>): (r: seq<Category>)
    ensures |r| <= |data|
    ensures forall c :: c in r <==> c in data && IsMain(c)
  {
    if data == [] then []
    else if IsMain(data[0]) then [data[0]] + FilterMain(data[1..])
    else FilterMain(data[1..])
  }

  /** `a` is `b` with some elements dropped and the rest in their order. */
  predicate Subsequence<T(==)>(a: seq<T>, b: seq<T>)
    decreases |b|
  {
    if a == [] then true
    else if b == [] then false
    else (a[0] == b[0] && Subsequence(a[1..], b[1..])) || Subsequence(a, b[1..])
  }

  /** The filter keeps the input order: the drawn categories are a subsequence of the data. */
  lemma {:induction false} FilterMainKeepsOrder(data: seq<Category>)
    ensures Subsequence(FilterMain(data), data)
  {
    if data != [] {
      FilterMainKeepsOrder(data[1..]);
      var rest := FilterMain(data[1..]);
      if IsMain(data[0]) {
        assert FilterMain(data) == [data[0]] + rest;
        assert ([data[0]] + rest)[1..] == rest;
      } else if rest != [] {
        assert FilterMain(data) == rest;
      }
    }
  }

  /** Filtering a concatenation filters each part. */
  lemma {:induction false} FilterMainAppend(a: seq<Category>, b: seq<Category>)
    ensures FilterMain(a + b) == FilterMain(a) + FilterMain(b)
  {
    if a != [] {
      assert (a + b)[0] == a[0];
      assert (a + b)[1..] == a[1..] + b;
      FilterMainAppend(a[1..], b);
      if IsMain(a[0]) {
        assert FilterMain(a + b) == [a[0]] + FilterMain(a[1..] + b);
        assert [a[0]] + (FilterMain(a[1..]) + FilterMain(b)) == ([a[0]] + FilterMain(a[1..])) + FilterMain(b);
      } else {
        assert FilterMain(a + b) == FilterMain(a[1..] + b);
      }
    } else {
      assert a + b == b;
    }
  }

  /** Data made only of main categories is drawn as it is: nothing is re-sorted. */
  lemma {:induction false} FilterMainOfMain(data: seq<Category>)
    requires forall i :: 0 <= i < |data| ==> IsMain(data[i])
    ensures FilterMain(data) == data
  {
    if data != [] {
      FilterMainOfMain(data[1..]);
    }
  }

  /** `CATEGORY_COLORS[name] || CATEGORY_COLORS['기타']`. */
  function Colour(name: string): (r: string)
    ensures name in CategoryColors ==> r == CategoryColors[name]
    ensures name !in CategoryColors ==> r == CategoryColors[Other]
  {
    if name in CategoryColors then CategoryColors[name] else CategoryColors[Other]
  }

  /** Every drawn category has its own colour, none of them the fallback one. */
  lemma MainColours()
    ensures forall n :: n in MainCategories ==> n in CategoryColors && Colour(n) != Colour(Other)
    ensures forall i, j :: 0 <= i < j < |MainCategories| ==>
      Colour(MainCategories[i]) != Colour(MainCategories[j])
  {
  }

  /** The header over a category: its name, its colour and its number of technologies. */
  datatype Header = Header(name: string, colour: string, count: nat)

  function HeaderOf(c: Category): (h: Header)
    ensures h.name == c.name && h.count == |c.children| && h.colour == Colour(c.name)
  {
    Header(c.name, Colour(c.name), |c.children|)
  }

  function Headers(cs: seq<Category>): (r: seq<Header>)
    ensures |r| == |cs|
    ensures forall i :: 0 <= i < |cs| ==> r[i] == HeaderOf(cs[i])
  {
    if cs == [] then [] else [HeaderOf(cs[0])] + Headers(cs[1..])
  }

  /** What the component draws: the empty-data placeholder, or a grid of category headers. */
  datatype View = Placeholder | Grid(headers: seq<Header>)

  /** `TechStackTreemap`. */
  function Render(data: Option<seq<Category>>): (v: View)
    ensures v.Placeholder? <==> data.None? || data.value == []
    ensures v.Grid? ==> v.headers == Headers(FilterMain(data.value))
  {
    if data.None? || data.value == [] then Placeholder else Grid(Headers(FilterMain(data.value)))
  }

  /**
   * The grid draws exactly the main categories of the data, in their order, each
   * with its own colour and the number of its technologies.
   */
  lemma RenderHeaders(data: seq<Category>)
    requires data != []
    ensures Render(Some(data)).Grid?
    ensures forall h :: h in Render(Some(data)).headers <==>
      exists c :: c in data && IsMain(c) && h == HeaderOf(c)
    ensures forall h :: h in Render(Some(data)).headers ==>
      h.name in MainCategories && h.colour == CategoryColors[h.name]
  {
    var f := FilterMain(data);
    var hs := Headers(f);
    forall h | h in hs
      ensures exists c :: c in data && IsMain(c) && h == HeaderOf(c)
    {
      var i :| 0 <= i < |hs| && hs[i] == h;
      assert f[i] in f;
    }
    forall h | exists c :: c in data && IsMain(c) && h == HeaderOf(c)
      ensures h in hs
    {
      var c :| c in data && IsMain(c) && h == HeaderOf(c);
      var i :| 0 <= i < |f| && f[i] == c;
      assert hs[i] == h;
    }
  }

  /** Data without any main category is not the placeholder but an empty grid. */
  lemma OnlyOtherGivesEmptyGrid(data: seq<Category>)
    requires data != [] && forall i :: 0 <= i < |data| ==> !IsMain(data[i])
    ensures Render(Some(data)) == Grid([])
  {
    FilterMainOfOther(data);
  }

  /** Data without any main category filters to nothing. */
  lemma {:induction false} FilterMainOfOther(data: seq<Category>)
    requires forall i :: 0 <= i < |data| ==> !IsMain(data[i])
    ensures FilterMain(data) == []
  {
    if data != [] {
      FilterMainOfOther(data[1..]);
    }
  }

  // ---------------------------------------------------------------------------
  // Tiles

  /** The font tier chosen by a tile's area. */
  function BaseFontSize(area: real): (r: nat)
    ensures r == 8 || r == 9 || r == 10 || r == 12 || r == 14
  {
    if area > 10000.0 then 14
    else if area > 5000.0 then 12
    else if area > 2500.0 then 10
    else if area > 1000.0 then 9
    else 8
  }

  /** A larger tile never gets a smaller tier. */
  lemma BaseFontSizeMonotone(a: real, b: real)
    requires a <= b
    ensures BaseFontSize(a) <= BaseFontSize(b)
  {
  }

  /** The tier bounds: 14 only above 10000, 8 exactly at or below 1000. */
  lemma BaseFontSizeBounds(area: real)
    ensures BaseFontSize(area) == 14 <==> area > 10000.0
    ensures BaseFontSize(area) == 8 <==> area <= 1000.0
    ensures BaseFontSize(area) >= 10 <==> area > 2500.0
  {
  }

  /**
   * `truncateText`: a name longer than a budget above 3 keeps its first
   * `maxChars - 2` characters followed by "..", exactly `maxChars` in all;
   * otherwise it is unchanged.
   */
  function Truncate(text: string, maxChars: int): (r: string)
    ensures |text| > maxChars > 3 ==>
      |r| == maxChars && r[..maxChars - 2] == text[..maxChars - 2] && r[maxChars - 2..] == ".."
    ensures !(|text| > maxChars > 3) ==> r == text
  {
    if |text| > maxChars && maxChars > 3 then text[..maxChars - 2] + ".." else text
  }

  /**
   * Truncating twice is truncating once, and with a budget above 3 the result
   * fits the budget.
   */
  lemma TruncateIdempotent(text: string, maxChars: int)
    ensures Truncate(Truncate(text, maxChars), maxChars) == Truncate(text, maxChars)
    ensures maxChars > 3 ==> |Truncate(text, maxChars)| <= maxChars
  {
  }

  /** `TECH_ICONS[name]` is truthy: a listed technology, or a name every object inherits. */
  predicate HasIcon(name: Option<string>) {
    name.Some? && (name.value in TechIcons || name.value in Js.ObjectPrototypeKeys)
  }

  /**
   * What a tile draws. `tier` is the font size the area chooses, before the page
   * caps it by the tile's width and height.
   */
  datatype Tile = Tile(tier: nat, labelled: bool, icon: bool, text: string, value: bool)

  /**
   * `CustomTreemapContent`: nothing inside a tile 30 wide and 25 high or smaller;
   * otherwise the icon when the name has one and the tile exceeds 30 by 30, the
   * truncated name, and the technology's value when the tile exceeds 50 by 35 and
   * no icon is drawn.
   */
  function TileOf(leaf: Leaf, width: real, height: real, maxChars: int): (t: Tile)
    ensures t.text == Truncate(leaf.name.GetOr(""), maxChars)
    ensures t.tier == BaseFontSize(width * height)
    ensures t.labelled <==> width > 30.0 && height > 25.0
    ensures t.icon <==> t.labelled && HasIcon(leaf.name) && height > 30.0
    ensures t.value <==> t.labelled && width > 50.0 && height > 35.0 && !(HasIcon(leaf.name) && height > 30.0)
  {
    var showIcon := HasIcon(leaf.name) && width > 30.0 && height > 30.0;
    var showValue := width > 50.0 && height > 35.0;
    var labelled := width > 30.0 && height > 25.0;
    Tile(BaseFontSize(width * height), labelled, labelled && showIcon,
      Truncate(leaf.name.GetOr(""), maxChars), labelled && showValue && !showIcon)
  }

  /**
   * The icon is drawn exactly when the name has one and the tile exceeds 30 by
   * 30; a tile never draws both the icon and the value; a missing name has no icon.
   */
  lemma IconRule(leaf: Leaf, width: real, height: real, maxChars: int)
    ensures TileOf(leaf, width, height, maxChars).icon <==> HasIcon(leaf.name) && width > 30.0 && height > 30.0
    ensures !(TileOf(leaf, width, height, maxChars).icon && TileOf(leaf, width, height, maxChars).value)
    ensures leaf.name.None? ==> !TileOf(leaf, width, height, maxChars).icon
  {
  }

  /**
   * Names with a space are looked up as written: "React Native" and "Tailwind CSS"
   * have icons, so a large tile draws the icon and not the value; the same names
   * without the space have none.
   */
  lemma IconNamesWithSpaces()
    ensures TileOf(Leaf(Some("React Native"), 1), 100.0, 100.0, 20).icon
    ensures !TileOf(Leaf(Some("React Native"), 1), 100.0, 100.0, 20).value
    ensures TileOf(Leaf(Some("Tailwind CSS"), 1), 100.0, 100.0, 20).icon
    ensures !HasIcon(Some("ReactNative")) && !HasIcon(Some("TailwindCSS"))
  {
    assert "React Native" in TechIcons;
    assert "Tailwind CSS" in TechIcons;
  }
}
