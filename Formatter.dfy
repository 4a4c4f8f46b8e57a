/** formatter.py: the reddit markdown of a reply.  SQLite rows are maps from
    a name to the row, and `str.format` of a display template stored in the
    database is an oracle `fill` from the template and its arguments. */
module Formatter {
  import opened Wrappers
  import opened Strings
  import opened Lookup
  import opened Profiler

  // ---------------------------------------------------------------------------
  // Markdown helpers

  /** `'{}'.format(x)` of an optional text: `None` prints as `None`. */
  function Show(o: Option<string>): string {
    if o.Some? then o.value else "None"
  }

  /** `_create_url`: a markdown link when the url is set, the bare text when
      it is `None` or empty. */
  function CreateUrl(text: string, url: Option<string>): (r: string)
    ensures !Truthy(url) ==> r == text
    ensures Truthy(url) ==> "[" + text + "](" <= r && r[|r| - 1] == ')' && |r| == |text| + |url.value| + 4
    ensures Truthy(url) ==> r[|text| + 3..|r| - 1] == url.value
  {
    if !Truthy(url) then text else "[" + text + "](" + url.value + ")"
  }

  /** The text of a link is recovered as what lies between `[` and the first
      `]`, when the text itself has no `]`. */
  lemma LinkText(text: string, url: string)
    requires url != "" && ']' !in text
    ensures Split(CreateUrl(text, Some(url))[1..], ']')[0] == text
  {
    var r := CreateUrl(text, Some(url));
    assert r[1..] == text + [']'] + ("(" + url + ")");
    SplitAfterFirst(text, ']', "(" + url + ")");
  }

  /** Every word with a caret in front. */
  function Carets(ws: seq<string>): (r: seq<string>)
    ensures |r| == |ws| && forall i :: 0 <= i < |ws| ==> r[i] == "^" + ws[i]
  {
    seq(|ws|, i requires 0 <= i < |ws| => "^" + ws[i])
  }

  /** `_super`: the words of the text joined by ` ^`, after a leading `^`. */
  function Super(text: string): (r: string)
    ensures |r| > 0 && r[0] == '^'
    ensures Words(text) == [] ==> r == "^"
  {
    "^" + Join(Words(text), " ^")
  }

  /** `_italic_superscript`: the superscript text between asterisks. */
  function ItalicSuperscript(text: string): (r: string)
    ensures |r| >= 2 && r[0] == '*' && r[|r| - 1] == '*' && r[1..|r| - 1] == Super(text)
  {
    "*" + Super(text) + "*"
  }

  lemma {:induction false} CaretJoin(ws: seq<string>)
    requires |ws| > 0
    ensures "^" + Join(ws, " ^") == Join(Carets(ws), " ")
    decreases |ws|
  {
    if |ws| > 1 {
      CaretJoin(ws[1..]);
      assert Carets(ws)[1..] == Carets(ws[1..]);
      assert "^" + (ws[0] + " ^" + Join(ws[1..], " ^")) == ("^" + ws[0]) + " " + ("^" + Join(ws[1..], " ^"));
    }
  }

  /** Superscript puts a caret before every word and separates the words by
      single spaces; text without words becomes a lone caret. */
  lemma SuperWords(text: string)
    ensures Words(text) == [] ==> Super(text) == "^"
    ensures Words(text) != [] ==> Super(text) == Join(Carets(Words(text)), " ")
    ensures Words(text) != [] ==> Words(Super(text)) == Carets(Words(text))
  {
    var ws := Words(text);
    if ws != [] {
      CaretJoin(ws);
      var cs := Carets(ws);
      forall i | 0 <= i < |cs| ensures |cs[i]| > 0 && NoSpace(cs[i]) {
        assert cs[i] == "^" + ws[i];
      }
      WordsJoin(cs);
    }
  }

  /** The italic form has the same words, each with its caret, between the
      asterisks. */
  lemma ItalicSuperWords(text: string)
    requires Words(text) != []
    ensures var r := ItalicSuperscript(text);
            Words(r[1..|r| - 1]) == Carets(Words(text))
  {
    SuperWords(text);
  }

  // ---------------------------------------------------------------------------
  // format_skills

  /** The cells of a table row, each followed by `|`. */
  function Cells(cells: seq<string>): string
    decreases |cells|
  {
    if |cells| == 0 then "" else cells[0] + "|" + Cells(cells[1..])
  }

  /** A table row: `> |` and then the cells. */
  function Row(cells: seq<string>): string {
    "> |" + Cells(cells)
  }

  lemma {:induction false} CellsSnoc(cells: seq<string>, c: string)
    ensures Cells(cells + [c]) == Cells(cells) + c + "|"
    decreases |cells|
  {
    if |cells| == 0 {
      assert cells + [c] == [c];
    } else {
      var xs := cells + [c];
      assert xs[0] == cells[0] && xs[1..] == cells[1..] + [c];
      CellsSnoc(cells[1..], c);
      calc {
        Cells(xs);
        cells[0] + "|" + Cells(cells[1..] + [c]);
        cells[0] + "|" + (Cells(cells[1..]) + c + "|");
        (cells[0] + "|" + Cells(cells[1..])) + c + "|";
      }
    }
  }

  lemma RowSnoc(cells: seq<string>, c: string)
    ensures Row(cells + [c]) == Row(cells) + c + "|"
  {
    CellsSnoc(cells, c);
  }

  lemma {:induction false} CellsSplit(cells: seq<string>)
    requires forall i :: 0 <= i < |cells| ==> '|' !in cells[i]
    ensures Split(Cells(cells), '|') == cells + [""]
    decreases |cells|
  {
    if |cells| > 0 {
      CellsSplit(cells[1..]);
      assert Cells(cells) == cells[0] + ['|'] + Cells(cells[1..]);
      SplitAfterFirst(cells[0], '|', Cells(cells[1..]));
      assert [cells[0]] + (cells[1..] + [""]) == cells + [""];
    }
  }

  /** A row read back: splitting it on `|` gives the `> ` lead, one piece per
      cell in order, and the empty text after the last `|`. */
  lemma RowSplit(cells: seq<string>)
    requires forall i :: 0 <= i < |cells| ==> '|' !in cells[i]
    ensures Split(Row(cells), '|') == ["> "] + cells + [""]
  {
    assert Row(cells) == "> " + ['|'] + Cells(cells);
    SplitAfterFirst("> ", '|', Cells(cells));
    CellsSplit(cells);
  }

  /** The cell of an active or passive skill: its name, linked when it has a url. */
  function SkillCell(e: SkillEntry): string {
    CreateUrl(Show(e.name), e.url)
  }

  function SkillCells(es: seq<SkillEntry>): (r: seq<string>)
    ensures |r| == |es| && forall i :: 0 <= i < |es| ==> r[i] == SkillCell(es[i])
  {
    seq(|es|, i requires 0 <= i < |es| => SkillCell(es[i]))
  }

  function RuneCells(es: seq<SkillEntry>): (r: seq<string>)
    ensures |r| == |es| && forall i :: 0 <= i < |es| ==> r[i] == Show(es[i].rune)
  {
    seq(|es|, i requires 0 <= i < |es| => Show(es[i].rune))
  }

  const SkillsIntro := "\n\n######&nbsp;\n\n****\n**Character Skills:**\n\n"

  /** The lines of the skills table, joined by newlines. */
  function SkillsLines(s: Skills): seq<string> {
    [SkillsIntro,
     "> **Active:**\n", "> | | | | | | |", "> |:-:|:-:|:-:|:-:|:-:|:-:|",
     Row(SkillCells(s.active)), Row(RuneCells(s.active)),
     "\n> **Passive:**\n", "> | | | | |", "> |:-:|:-:|:-:|:-:|",
     Row(SkillCells(s.passive))]
  }

  /** The active, rune and passive rows hold one cell per skill, in order. */
  lemma SkillRows(s: Skills)
    requires forall i :: 0 <= i < |s.active| ==> '|' !in SkillCell(s.active[i]) && '|' !in Show(s.active[i].rune)
    requires forall i :: 0 <= i < |s.passive| ==> '|' !in SkillCell(s.passive[i])
    ensures Split(SkillsLines(s)[4], '|') == ["> "] + SkillCells(s.active) + [""]
    ensures Split(SkillsLines(s)[5], '|') == ["> "] + RuneCells(s.active) + [""]
    ensures Split(SkillsLines(s)[9], '|') == ["> "] + SkillCells(s.passive) + [""]
  {
    var lines := SkillsLines(s);
    assert lines[4] == Row(SkillCells(s.active)) && lines[5] == Row(RuneCells(s.active)) && lines[9] == Row(SkillCells(s.passive));
    RowSplit(SkillCells(s.active));
    RowSplit(RuneCells(s.active));
    RowSplit(SkillCells(s.passive));
  }

  /** Adding skill `i` to the rows built from the skills before it. */
  lemma RowStep(es: seq<SkillEntry>, i: nat)
    requires i < |es|
    ensures Row(SkillCells(es[..i + 1])) == Row(SkillCells(es[..i])) + SkillCell(es[i]) + "|"
    ensures Row(RuneCells(es[..i + 1])) == Row(RuneCells(es[..i])) + Show(es[i].rune) + "|"
  {
    SkillCellsSnoc(es, i);
    RowSnoc(SkillCells(es[..i]), SkillCell(es[i]));
    RuneCellsSnoc(es, i);
    RowSnoc(RuneCells(es[..i]), Show(es[i].rune));
  }

  lemma SkillCellsSnoc(es: seq<SkillEntry>, i: nat)
    requires i < |es|
    ensures SkillCells(es[..i + 1]) == SkillCells(es[..i]) + [SkillCell(es[i])]
  {
    var a := SkillCells(es[..i + 1]);
    var b := SkillCells(es[..i]) + [SkillCell(es[i])];
    assert |a| == |b|;
    forall k | 0 <= k < |a| ensures a[k] == b[k] {
      assert es[..i + 1][k] == es[k];
    }
  }

  lemma RuneCellsSnoc(es: seq<SkillEntry>, i: nat)
    requires i < |es|
    ensures RuneCells(es[..i + 1]) == RuneCells(es[..i]) + [Show(es[i].rune)]
  {
    var a := RuneCells(es[..i + 1]);
    var b := RuneCells(es[..i]) + [Show(es[i].rune)];
    assert |a| == |b|;
    forall k | 0 <= k < |a| ensures a[k] == b[k] {
      assert es[..i + 1][k] == es[k];
    }
  }

  /** `format_skills`. */
  method FormatSkills(s: Skills) returns (r: string)
    ensures r == Join(SkillsLines(s), "\n")
  {
    var active := "> |";
    var rune := "> |";
    var i := 0;
    while i < |s.active|
      invariant 0 <= i <= |s.active|
      invariant active == Row(SkillCells(s.active[..i])) && rune == Row(RuneCells(s.active[..i]))
    {
      RowStep(s.active, i);
      active := active + SkillCell(s.active[i]) + "|";
      rune := rune + Show(s.active[i].rune) + "|";
      i := i + 1;
    }
    assert s.active[..i] == s.active;
    var passive := "> |";
    i := 0;
    while i < |s.passive|
      invariant 0 <= i <= |s.passive|
      invariant passive == Row(SkillCells(s.passive[..i]))
    {
      RowStep(s.passive, i);
      passive := passive + SkillCell(s.passive[i]) + "|";
      i := i + 1;
    }
    assert s.passive[..i] == s.passive;
    var table := [SkillsIntro,
                  "> **Active:**\n", "> | | | | | | |", "> |:-:|:-:|:-:|:-:|:-:|:-:|",
                  active, rune,
                  "\n> **Passive:**\n", "> | | | | |", "> |:-:|:-:|:-:|:-:|",
                  passive];
    r := Join(table, "\n");
  }

  // ---------------------------------------------------------------------------
  // format_intro

  function DigitOf(d: nat): char
    requires d < 10
  {
    ('0' as int + d) as char
  }

  /** `str(n)` of a natural number. */
  function NatText(n: nat): (r: string)
    ensures |r| > 0 && forall i :: 0 <= i < |r| ==> IsDigit(r[i])
    decreases n
  {
    if n < 10 then [DigitOf(n)] else NatText(n / 10) + [DigitOf(n % 10)]
  }

  /** The number a run of decimal digits stands for. */
  function DigitsValue(s: string): nat
    decreases |s|
  {
    if |s| == 0 then 0
    else DigitsValue(s[..|s| - 1]) * 10 + (if IsDigit(s[|s| - 1]) then s[|s| - 1] as int - '0' as int else 0)
  }

  /** Reading back a printed number gives the number. */
  lemma {:induction false} NatTextRoundTrip(n: nat)
    ensures DigitsValue(NatText(n)) == n
    decreases n
  {
    if n >= 10 {
      NatTextRoundTrip(n / 10);
      var s := NatText(n);
      assert s[..|s| - 1] == NatText(n / 10);
    }
  }

  /** `str(i)` of an integer. */
  function IntText(i: int): (r: string)
    ensures |r| > 0
    ensures i >= 0 ==> DigitsValue(r) == i
    ensures i < 0 ==> r[0] == '-' && DigitsValue(r[1..]) == -i
  {
    if i < 0 then
      NatTextRoundTrip(-i);
      assert ("-" + NatText(-i))[1..] == NatText(-i);
      "-" + NatText(-i)
    else
      NatTextRoundTrip(i);
      NatText(i)
  }

  const IntroHead := "### **Text Profile for "

  /** The intro up to the paragon level: the linked name and the level. */
  function IntroLead(info: Intro): string {
    IntroHead + CreateUrl(info.name, Some(info.url)) + "** - " + IntText(info.level) + " (PL "
  }

  /** `format_intro`: the linked hero name, level, paragon level, the
      hardcore mark and the class. */
  function FormatIntro(info: Intro): (r: string)
    ensures IntroLead(info) <= r
    ensures r[|IntroLead(info)|..] == IntText(info.paragonLevel) + ") " + info.hardcore + " " + info.heroClass
    ensures |r| > |info.heroClass| && r[|r| - |info.heroClass| - 1..] == " " + info.heroClass
  {
    var head := IntroLead(info);
    var tail := IntText(info.paragonLevel) + ") " + info.hardcore + " " + info.heroClass;
    var r := head + IntText(info.paragonLevel) + ") " + info.hardcore + " " + info.heroClass;
    assert r == head + tail;
    r
  }

  // ---------------------------------------------------------------------------
  // `sorted(d)` over integer keys

  /** A non-empty set has an element. */
  lemma HasElement(s: set<int>)
    requires s != {}
    ensures exists y :: y in s
  {
    if forall y :: y !in s {
      assert false;
    }
  }

  lemma {:induction false} LeastExists(s: set<int>)
    requires s != {}
    ensures exists m :: m in s && forall x :: x in s ==> m <= x
    decreases |s|
  {
    HasElement(s);
    var y :| y in s;
    if s != {y} {
      var s' := s - {y};
      assert s == s' + {y};
      LeastExists(s');
    }
  }

  /** The smallest key. */
  function Least(s: set<int>): (m: int)
    requires s != {}
    ensures m in s && forall x :: x in s ==> m <= x
  {
    LeastExists(s);
    var m :| m in s && forall x :: x in s ==> m <= x;
    m
  }

  /** The keys in ascending order. */
  function Ascending(s: set<int>): (r: seq<int>)
    ensures forall i :: 0 <= i < |r| ==> r[i] in s
    decreases |s|
  {
    if s == {} then []
    else
      var m := Least(s);
      [m] + Ascending(s - {m})
  }

  /** `sorted` lists every key once, smallest first. */
  lemma {:induction false} AscendingSorted(s: set<int>)
    ensures |Ascending(s)| == |s|
    ensures forall x :: x in s ==> x in Ascending(s)
    ensures forall i, j :: 0 <= i < j < |Ascending(s)| ==> Ascending(s)[i] < Ascending(s)[j]
    decreases |s|
  {
    if s != {} {
      var m := Least(s);
      var rest := Ascending(s - {m});
      AscendingSorted(s - {m});
      assert Ascending(s) == [m] + rest;
      forall x | x in s
        ensures x in Ascending(s)
      {
        if x != m {
          assert x in s - {m};
        }
      }
    }
  }

  // ---------------------------------------------------------------------------
  // format_gear: gems

  /** The sum of the gem values for `attr`. */
  function GemSum(gems: seq<GemValue>, attr: string): int
    decreases |gems|
  {
    if |gems| == 0 then 0
    else GemSum(gems[..|gems| - 1], attr) + (if gems[|gems| - 1].attr == attr then gems[|gems| - 1].val else 0)
  }

  /** The gem attributes in the order they first appear. */
  function FirstSeen(gems: seq<GemValue>): seq<string>
    decreases |gems|
  {
    if |gems| == 0 then []
    else
      var o := FirstSeen(gems[..|gems| - 1]);
      var a := gems[|gems| - 1].attr;
      if a in o then o else o + [a]
  }

  /** The attributes of the gems. */
  function GemAttrs(gems: seq<GemValue>): set<string> {
    set i | 0 <= i < |gems| :: gems[i].attr
  }

  /** The attributes listed are exactly those of the gems, none twice. */
  lemma {:induction false} FirstSeenSpec(gems: seq<GemValue>)
    ensures forall a :: a in FirstSeen(gems) <==> a in GemAttrs(gems)
    ensures forall k, l :: 0 <= k < l < |FirstSeen(gems)| ==> FirstSeen(gems)[k] != FirstSeen(gems)[l]
    decreases |gems|
  {
    if |gems| > 0 {
      var init := gems[..|gems| - 1];
      FirstSeenSpec(init);
      assert GemAttrs(gems) == GemAttrs(init) + {gems[|gems| - 1].attr} by {
        assert forall i :: 0 <= i < |init| ==> init[i] == gems[i];
      }
    } else {
      assert GemAttrs(gems) == {};
    }
  }

  /** An attribute no gem has sums to 0. */
  lemma {:induction false} GemSumUnseen(gems: seq<GemValue>, a: string)
    requires a !in FirstSeen(gems)
    ensures GemSum(gems, a) == 0
    decreases |gems|
  {
    if |gems| > 0 {
      var init := gems[..|gems| - 1];
      assert forall i :: 0 <= i < |init| ==> init[i] == gems[i];
      assert a !in FirstSeen(init);
      GemSumUnseen(init, a);
    }
  }

  /** Summing two groups of gems adds their sums: the order of the gems does
      not matter. */
  lemma {:induction false} GemSumAppend(a: seq<GemValue>, b: seq<GemValue>, attr: string)
    ensures GemSum(a + b, attr) == GemSum(a, attr) + GemSum(b, attr)
    decreases |b|
  {
    if |b| == 0 {
      assert a + b == a;
    } else {
      assert (a + b)[..|a + b| - 1] == a + b[..|b| - 1];
      GemSumAppend(a, b[..|b| - 1], attr);
    }
  }

  /** `totals` holds the sum of every attribute of `gems`, and `order` lists
      those attributes in the order they first appear. */
  ghost predicate SumsOf(totals: map<string, int>, order: seq<string>, gems: seq<GemValue>) {
    && order == FirstSeen(gems)
    && (forall a :: a in totals <==> a in order)
    && (forall a :: a in totals ==> totals[a] == GemSum(gems, a))
  }

  /** One more gem joins the order unless its attribute was seen. */
  lemma FirstSeenSnoc(gems: seq<GemValue>, g: GemValue)
    ensures FirstSeen(gems + [g]) == if g.attr in FirstSeen(gems) then FirstSeen(gems) else FirstSeen(gems) + [g.attr]
  {
    var gs := gems + [g];
    assert gs[..|gs| - 1] == gems && gs[|gs| - 1] == g;
  }

  /** One more gem adds to its own attribute's sum only. */
  lemma GemSumSnoc(gems: seq<GemValue>, g: GemValue, a: string)
    ensures GemSum(gems + [g], a) == GemSum(gems, a) + (if g.attr == a then g.val else 0)
  {
    var gs := gems + [g];
    assert gs[..|gs| - 1] == gems && gs[|gs| - 1] == g;
  }

  /** One more gem adds its value to its attribute's sum, or starts a new
      sum at the end of the order. */
  lemma AddGem(totals: map<string, int>, order: seq<string>, gems: seq<GemValue>, g: GemValue)
    requires SumsOf(totals, order, gems)
    ensures g.attr in totals ==> SumsOf(totals[g.attr := totals[g.attr] + g.val], order, gems + [g])
    ensures g.attr !in totals ==> SumsOf(totals[g.attr := g.val], order + [g.attr], gems + [g])
  {
    FirstSeenSnoc(gems, g);
    forall a
      ensures GemSum(gems + [g], a) == GemSum(gems, a) + (if g.attr == a then g.val else 0)
    {
      GemSumSnoc(gems, g, a);
    }
    if g.attr !in totals {
      GemSumUnseen(gems, g.attr);
    }
  }

  /** The gem loop of `format_gear`: `gem_data`, with its attributes in the
      order they were added. */
  method GemTotals(gems: seq<GemValue>) returns (totals: map<string, int>, order: seq<string>)
    ensures order == FirstSeen(gems)
    ensures forall a :: a in totals <==> a in order
    ensures forall a :: a in totals ==> totals[a] == GemSum(gems, a)
  {
    totals := map[];
    order := [];
    var i := 0;
    while i < |gems|
      invariant 0 <= i <= |gems|
      invariant SumsOf(totals, order, gems[..i])
    {
      var g := gems[i];
      AddGem(totals, order, gems[..i], g);
      assert gems[..i + 1] == gems[..i] + [g];
      if g.attr in totals {
        totals := totals[g.attr := totals[g.attr] + g.val];
      } else {
        totals := totals[g.attr := g.val];
        order := order + [g.attr];
      }
      i := i + 1;
    }
    assert gems[..i] == gems;
  }

  // ---------------------------------------------------------------------------
  // format_gear: the stat line of an item

  /** A row of the item table: its display template (`None` or empty when
      not shown) and its display order. */
  datatype ItemRow = ItemRow(display: Option<string>, dispOrder: int)

  /** `str.format` of a display template with the given arguments. */
  type Fill = (string, seq<int>) -> string

  /** The regular stats of an item keyed by display order: a stat is shown
      when its row has a template and its order is below `maxOrder`; a later
      stat with the same order replaces an earlier one.  A stat without a row
      raises `TypeError`. */
  function RegularRun(stats: seq<StatEntry>, rows: map<string, ItemRow>, maxOrder: int, fill: Fill,
                      d: map<int, string>): (r: Result<map<int, string>>)
    ensures r.Ok? && (forall k :: k in d ==> k < maxOrder) ==> forall k :: k in r.value ==> k < maxOrder
    decreases |stats|
  {
    if |stats| == 0 then Ok(d)
    else if stats[0].name !in rows then Raised(TypeError)
    else
      var row := rows[stats[0].name];
      var d' := if Truthy(row.display) && row.dispOrder < maxOrder
                then d[row.dispOrder := fill(row.display.value, [stats[0].min, stats[0].max])] else d;
      RegularRun(stats[1..], rows, maxOrder, fill, d')
  }

  /** The summed gems, attribute by attribute in `order`: each attribute whose
      row has a template takes the next key from `count` on.  Returns the map
      and the next free key. */
  function GemLines(order: seq<string>, gems: seq<GemValue>, rows: map<string, ItemRow>, fill: Fill,
                    d: map<int, string>, count: int): (r: Result<(map<int, string>, int)>)
    ensures r.Ok? ==> r.value.1 >= count
    ensures r.Ok? ==> forall k :: k in r.value.0 ==> k in d || count <= k < r.value.1
    ensures r.Ok? ==> forall k :: count <= k < r.value.1 ==> k in r.value.0
    ensures r.Ok? ==> forall k :: k in d && !(count <= k < r.value.1) ==> k in r.value.0 && r.value.0[k] == d[k]
    decreases |order|
  {
    if |order| == 0 then Ok((d, count))
    else if order[0] !in rows then Raised(TypeError)
    else
      var row := rows[order[0]];
      if Truthy(row.display) then
        GemLines(order[1..], gems, rows, fill, d[count := fill(row.display.value, [GemSum(gems, order[0])]) + " (gems)"], count + 1)
      else GemLines(order[1..], gems, rows, fill, d, count)
  }

  /** `d_stats` of an item: the regular stats, then the gems (when the item
      has a `gems` entry) from `maxOrder + 1` on. */
  function ItemStatMap(g: GearItem, rows: map<string, ItemRow>, maxOrder: int, fill: Fill): Result<map<int, string>> {
    match RegularRun(g.stats, rows, maxOrder, fill, map[])
    case Raised(e) => Raised(e)
    case Ok(d) =>
      if g.gems.None? then Ok(d)
      else
        match GemLines(FirstSeen(g.gems.value), g.gems.value, rows, fill, d, maxOrder + 1)
        case Raised(e) => Raised(e)
        case Ok(p) => Ok(p.0)
  }

  /** In an item's stat line every regular stat has a key below `maxOrder`
      and the gems take the keys from `maxOrder + 1` on without gaps, so in
      ascending key order all gem entries follow all regular stats. */
  lemma GemsFollowStats(g: GearItem, rows: map<string, ItemRow>, maxOrder: int, fill: Fill)
    requires ItemStatMap(g, rows, maxOrder, fill).Ok?
    ensures var d := ItemStatMap(g, rows, maxOrder, fill).value;
            forall k :: k in d ==> k < maxOrder || k > maxOrder
    ensures var d := ItemStatMap(g, rows, maxOrder, fill).value;
            var ks := Ascending(d.Keys);
            forall i, j :: 0 <= i < j < |ks| && ks[j] < maxOrder ==> ks[i] < maxOrder
    ensures var d := ItemStatMap(g, rows, maxOrder, fill).value;
            forall k :: maxOrder < k && k in d ==> forall l :: maxOrder < l <= k ==> l in d
  {
    var d0 := RegularRun(g.stats, rows, maxOrder, fill, map[]).value;
    assert forall k :: k in d0 ==> k < maxOrder;
    var d := ItemStatMap(g, rows, maxOrder, fill).value;
    if g.gems.Some? {
      var p := GemLines(FirstSeen(g.gems.value), g.gems.value, rows, fill, d0, maxOrder + 1).value;
      assert d == p.0;
    }
    AscendingSorted(d.Keys);
  }

  /** The values of `d` at the keys `ks`. */
  function Values(d: map<int, string>, ks: seq<int>): (r: seq<string>)
    requires forall i :: 0 <= i < |ks| ==> ks[i] in d
    ensures |r| == |ks| && forall i :: 0 <= i < |ks| ==> r[i] == d[ks[i]]
  {
    seq(|ks|, i requires 0 <= i < |ks| => d[ks[i]])
  }

  /** The entries of a stat map in ascending key order, joined by ` | `. */
  function StatText(d: map<int, string>): string {
    Join(Values(d, Ascending(d.Keys)), " | ")
  }

  /** The heading line of an item, with the typographic apostrophe replaced. */
  function ItemInfo(g: GearItem): (r: string)
    ensures '\U{2019}' !in r
  {
    Replace("> **" + CreateUrl(g.name, g.url) + " (" + g.typeName + ")**", "\U{2019}", "'")
  }

  /** The passives of an item in italic superscript, or nothing. */
  function PassiveLine(passives: seq<string>): (r: string)
    ensures r == "" <==> Join(passives, " | ") == ""
  {
    var t := Join(passives, " | ");
    if t != "" then "> " + ItalicSuperscript(t) else ""
  }

  /** The text of one item. */
  function ItemText(g: GearItem, rows: map<string, ItemRow>, maxOrder: int, fill: Fill): Result<string> {
    match ItemStatMap(g, rows, maxOrder, fill)
    case Raised(e) => Raised(e)
    case Ok(d) => Ok(Join([ItemInfo(g), "> " + StatText(d), PassiveLine(g.passives)], "    \n"))
  }

  /** The loop over an item's regular stats. */
  method RegularStats(stats: seq<StatEntry>, rows: map<string, ItemRow>, maxOrder: int, fill: Fill, d0: map<int, string>)
    returns (r: Result<map<int, string>>)
    ensures r == RegularRun(stats, rows, maxOrder, fill, d0)
  {
    var d := d0;
    var i := 0;
    while i < |stats|
      invariant 0 <= i <= |stats|
      invariant RegularRun(stats, rows, maxOrder, fill, d0) == RegularRun(stats[i..], rows, maxOrder, fill, d)
    {
      var stat := stats[i];
      assert stats[i..][0] == stat && stats[i..][1..] == stats[i + 1..];
      if stat.name !in rows {
        return Raised(TypeError);
      }
      var row := rows[stat.name];
      if Truthy(row.display) && row.dispOrder < maxOrder {
        d := d[row.dispOrder := fill(row.display.value, [stat.min, stat.max])];
      }
      i := i + 1;
    }
    return Ok(d);
  }

  /** The loop over an item's summed gems, given the sums. */
  method GemEntries(order: seq<string>, totals: map<string, int>, gems: seq<GemValue>, rows: map<string, ItemRow>,
                    fill: Fill, d0: map<int, string>, count0: int) returns (r: Result<map<int, string>>)
    requires forall a :: a in order ==> a in totals && totals[a] == GemSum(gems, a)
    ensures var e := GemLines(order, gems, rows, fill, d0, count0);
            r == (match e case Raised(x) => Raised(x) case Ok(p) => Ok(p.0))
  {
    var d := d0;
    var count := count0;
    var j := 0;
    while j < |order|
      invariant 0 <= j <= |order|
      invariant GemLines(order, gems, rows, fill, d0, count0) == GemLines(order[j..], gems, rows, fill, d, count)
    {
      var attr := order[j];
      assert order[j..][0] == attr && order[j..][1..] == order[j + 1..];
      if attr !in rows {
        return Raised(TypeError);
      }
      var row := rows[attr];
      if Truthy(row.display) {
        d := d[count := fill(row.display.value, [totals[attr]]) + " (gems)"];
        count := count + 1;
      }
      j := j + 1;
    }
    assert order[j..] == [];
    return Ok(d);
  }

  /** The loops over one item's stats and gems: `d_stats`. */
  method StatMap(g: GearItem, rows: map<string, ItemRow>, maxOrder: int, fill: Fill) returns (r: Result<map<int, string>>)
    ensures r == ItemStatMap(g, rows, maxOrder, fill)
  {
    r := RegularStats(g.stats, rows, maxOrder, fill, map[]);
    if r.Raised? || g.gems.None? {
      return;
    }
    var totals, order := GemTotals(g.gems.value);
    r := GemEntries(order, totals, g.gems.value, rows, fill, r.value, maxOrder + 1);
  }

  // ---------------------------------------------------------------------------
  // format_gear: the whole gear text

  const GearIntro := "\n\n######&nbsp;\n\n****\n**Equipped Gear:**\n\n"

  /** The texts of all slots, visited in `slots` order. */
  function GearTexts(slots: seq<(string, GearItem)>, rows: map<string, ItemRow>, maxOrder: int, fill: Fill,
                     items: map<string, string>): (r: Result<map<string, string>>)
    ensures r.Raised? <==> exists i :: 0 <= i < |slots| && ItemText(slots[i].1, rows, maxOrder, fill).Raised?
    decreases |slots|
  {
    if |slots| == 0 then Ok(items)
    else
      assert forall i :: 1 <= i < |slots| ==> slots[i] == slots[1..][i - 1];
      match ItemText(slots[0].1, rows, maxOrder, fill)
      case Raised(e) => Raised(e)
      case Ok(t) => GearTexts(slots[1..], rows, maxOrder, fill, items[slots[0].0 := t])
  }

  /** The texts of the slots named in `order` that have a text, in that order. */
  function Displayed(order: seq<string>, items: map<string, string>): seq<string>
    decreases |order|
  {
    if |order| == 0 then []
    else (if order[0] in items then [items[order[0]]] else []) + Displayed(order[1..], items)
  }

  /** When every listed slot has a text, the gear shows exactly those texts in
      the listed order. */
  lemma {:induction false} DisplayedAll(order: seq<string>, items: map<string, string>)
    requires forall i :: 0 <= i < |order| ==> order[i] in items
    ensures Displayed(order, items) == seq(|order|, i requires 0 <= i < |order| => items[order[i]])
    decreases |order|
  {
    if |order| > 0 {
      DisplayedAll(order[1..], items);
    }
  }

  /** Only the texts of listed slots are shown, at most one per listed
      name. */
  lemma {:induction false} DisplayedListed(order: seq<string>, items: map<string, string>)
    ensures forall t :: t in Displayed(order, items) ==> exists slot :: slot in order && slot in items && items[slot] == t
    ensures |Displayed(order, items)| <= |order|
    decreases |order|
  {
    if |order| > 0 {
      DisplayedListed(order[1..], items);
      var head := if order[0] in items then [items[order[0]]] else [];
      var rest := Displayed(order[1..], items);
      assert Displayed(order, items) == head + rest;
      forall t | t in Displayed(order, items)
        ensures exists slot :: slot in order && slot in items && items[slot] == t
      {
        if t in head {
          assert order[0] in order;
        } else {
          assert t in rest;
          var slot :| slot in order[1..] && slot in items && items[slot] == t;
          assert slot in order;
        }
      }
    } else {
      assert Displayed(order, items) == [];
    }
  }

  /** `format_gear` as a value: every slot's text, then the slots named in
      the display order. */
  function GearText(slots: seq<(string, GearItem)>, rows: map<string, ItemRow>, maxOrder: int, fill: Fill,
                    displayOrder: string): (r: Result<string>)
    ensures r.Raised? <==> exists i :: 0 <= i < |slots| && ItemText(slots[i].1, rows, maxOrder, fill).Raised?
    ensures r.Ok? ==> GearIntro <= r.value
  {
    match GearTexts(slots, rows, maxOrder, fill, map[])
    case Raised(e) => Raised(e)
    case Ok(items) => Ok(GearIntro + Join(Displayed(Split(displayOrder, ','), items), "\n\n"))
  }

  /** The text of one item: heading, stat line and passives. */
  method ItemEntry(g: GearItem, rows: map<string, ItemRow>, maxOrder: int, fill: Fill) returns (r: Result<string>)
    ensures r == ItemText(g, rows, maxOrder, fill)
  {
    var d := StatMap(g, rows, maxOrder, fill);
    if d.Raised? {
      return Raised(d.error);
    }
    r := Ok(Join([ItemInfo(g), "> " + StatText(d.value), PassiveLine(g.passives)], "    \n"));
  }

  /** One slot of the gear loop. */
  lemma GearTextsStep(slots: seq<(string, GearItem)>, rows: map<string, ItemRow>, maxOrder: int, fill: Fill,
                      items: map<string, string>)
    requires |slots| > 0
    ensures GearTexts(slots, rows, maxOrder, fill, items) ==
            match ItemText(slots[0].1, rows, maxOrder, fill)
            case Raised(e) => Raised(e)
            case Ok(t) => GearTexts(slots[1..], rows, maxOrder, fill, items[slots[0].0 := t])
  {
  }

  /** The loop over the gear slots: `items`. */
  method ItemTexts(slots: seq<(string, GearItem)>, rows: map<string, ItemRow>, maxOrder: int, fill: Fill)
    returns (r: Result<map<string, string>>)
    ensures r == GearTexts(slots, rows, maxOrder, fill, map[])
  {
    var items: map<string, string> := map[];
    var i := 0;
    while i < |slots|
      invariant 0 <= i <= |slots|
      invariant GearTexts(slots, rows, maxOrder, fill, map[]) == GearTexts(slots[i..], rows, maxOrder, fill, items)
    {
      assert slots[i..][0] == slots[i] && slots[i..][1..] == slots[i + 1..];
      GearTextsStep(slots[i..], rows, maxOrder, fill, items);
      var t := ItemEntry(slots[i].1, rows, maxOrder, fill);
      if t.Raised? {
        return Raised(t.error);
      }
      items := items[slots[i].0 := t.value];
      i := i + 1;
    }
    return Ok(items);
  }

  /** The loop over the display order. */
  method DisplayTexts(order: seq<string>, items: map<string, string>) returns (disp: seq<string>)
    ensures disp == Displayed(order, items)
  {
    disp := [];
    var k := 0;
    while k < |order|
      invariant 0 <= k <= |order|
      invariant disp + Displayed(order[k..], items) == Displayed(order, items)
    {
      assert order[k..][0] == order[k] && order[k..][1..] == order[k + 1..];
      if order[k] in items {
        disp := disp + [items[order[k]]];
      }
      k := k + 1;
    }
    assert order[k..] == [];
    assert disp + [] == disp;
  }

  /** `format_gear`: `slots` is the gear in iteration order, `maxOrder` the
      configured `max_order` and `displayOrder` the `item_display_order`
      setting. */
  method FormatGear(slots: seq<(string, GearItem)>, rows: map<string, ItemRow>, maxOrder: int, fill: Fill,
                    displayOrder: string) returns (r: Result<string>)
    ensures r == GearText(slots, rows, maxOrder, fill, displayOrder)
  {
    var items := ItemTexts(slots, rows, maxOrder, fill);
    if items.Raised? {
      return Raised(items.error);
    }
    var disp := DisplayTexts(Split(displayOrder, ','), items.value);
    r := Ok(GearIntro + Join(disp, "\n\n"));
  }

  // ---------------------------------------------------------------------------
  // format_stats

  /** A row of the stats table. */
  datatype StatRow = StatRow(display: Option<string>, dispName: Option<string>, dispOrder: int, primaryStat: int)

  /** `char_stats` (display order to name and value) and `max_name_len`. */
  datatype Board = Board(lines: map<int, (string, string)>, maxName: nat)

  const CritBonus := "Crit_Percent_Bonus_Capped"

  /** Values that are not shown: zero, and a primary stat below 100. */
  predicate Hidden(val: int, row: StatRow) {
    val == 0 || (row.primaryStat == 1 && val < 100)
  }

  /** Every name fits in the name column. */
  predicate Fits(b: Board) {
    forall k :: k in b.lines ==> |b.lines[k].0| <= b.maxName
  }

  /** The value a stat is shown with: gear crit chance gets its base 5. */
  function Adjusted(name: string, val: int, gear: bool): int {
    if gear && name == CritBonus then val + 5 else val
  }

  /** Record one shown stat. */
  function Post(b: Board, row: StatRow, shown: string): (r: Board)
    requires row.dispName.Some?
    ensures Fits(b) ==> Fits(r)
    ensures r.lines == b.lines[row.dispOrder := (row.dispName.value, shown)]
    ensures r.maxName >= b.maxName && r.maxName >= |row.dispName.value|
  {
    var name := row.dispName.value;
    Board(b.lines[row.dispOrder := (name, shown)], if |name| > b.maxName then |name| else b.maxName)
  }

  /** One loop of `format_stats` (the character stats, or with `gear` the
      gear stats): a stat without a row raises `TypeError`; a stat whose row
      has a template and a name is recorded unless its value is hidden. */
  function BoardRun(stats: seq<(string, int)>, gear: bool, rows: map<string, StatRow>, fill: Fill, b: Board): (r: Result<Board>)
    ensures r.Ok? && Fits(b) ==> Fits(r.value)
    ensures r.Raised? <==> exists i :: 0 <= i < |stats| && stats[i].0 !in rows
    ensures r.Raised? ==> r.error == TypeError
    decreases |stats|
  {
    if |stats| == 0 then Ok(b)
    else
      assert forall i :: 1 <= i < |stats| ==> stats[i] == stats[1..][i - 1];
      var (name, v) := stats[0];
      if name !in rows then Raised(TypeError)
      else
        var row := rows[name];
        var val := Adjusted(name, v, gear);
        if Truthy(row.display) && Truthy(row.dispName) && !Hidden(val, row) then
          BoardRun(stats[1..], gear, rows, fill, Post(b, row, fill(row.display.value, [val])))
        else BoardRun(stats[1..], gear, rows, fill, b)
  }

  /** Running over two lists is running over the first, then the second. */
  lemma {:induction false} BoardRunAppend(a: seq<(string, int)>, c: seq<(string, int)>, gear: bool,
                                          rows: map<string, StatRow>, fill: Fill, b: Board)
    ensures BoardRun(a + c, gear, rows, fill, b) ==
            match BoardRun(a, gear, rows, fill, b)
            case Raised(e) => Raised(e)
            case Ok(b1) => BoardRun(c, gear, rows, fill, b1)
    decreases |a|
  {
    if |a| == 0 {
      assert a + c == c;
    } else {
      assert (a + c)[0] == a[0] && (a + c)[1..] == a[1..] + c;
      var (name, v) := a[0];
      if name in rows {
        var row := rows[name];
        var val := Adjusted(name, v, gear);
        if Truthy(row.display) && Truthy(row.dispName) && !Hidden(val, row) {
          BoardRunAppend(a[1..], c, gear, rows, fill, Post(b, row, fill(row.display.value, [val])));
        } else {
          BoardRunAppend(a[1..], c, gear, rows, fill, b);
        }
      }
    }
  }

  /** Every line on the board came from the board before or from a stat of
      the list that has a template and a name and is not hidden. */
  lemma {:induction false} BoardShowsOnly(stats: seq<(string, int)>, gear: bool, rows: map<string, StatRow>, fill: Fill, b: Board, k: int)
    requires BoardRun(stats, gear, rows, fill, b).Ok?
    requires k in BoardRun(stats, gear, rows, fill, b).value.lines
    ensures k in b.lines ||
            exists i :: 0 <= i < |stats| && stats[i].0 in rows && rows[stats[i].0].dispOrder == k &&
                        Truthy(rows[stats[i].0].display) && Truthy(rows[stats[i].0].dispName) &&
                        !Hidden(Adjusted(stats[i].0, stats[i].1, gear), rows[stats[i].0])
    decreases |stats|
  {
    if |stats| > 0 {
      var (name, v) := stats[0];
      var row := rows[name];
      var val := Adjusted(name, v, gear);
      var b1 := if Truthy(row.display) && Truthy(row.dispName) && !Hidden(val, row) then Post(b, row, fill(row.display.value, [val])) else b;
      BoardShowsOnly(stats[1..], gear, rows, fill, b1, k);
      if k !in b1.lines {
        var i :| 0 <= i < |stats[1..]| && stats[1..][i].0 in rows && rows[stats[1..][i].0].dispOrder == k &&
                 Truthy(rows[stats[1..][i].0].display) && Truthy(rows[stats[1..][i].0].dispName) &&
                 !Hidden(Adjusted(stats[1..][i].0, stats[1..][i].1, gear), rows[stats[1..][i].0]);
        assert stats[i + 1] == stats[1..][i];
      }
    }
  }

  /** The last shown stat of a list owns its line: a gear stat replaces a
      character stat, or an earlier gear stat, with the same display order. */
  lemma LastStatWins(stats: seq<(string, int)>, name: string, v: int, gear: bool, rows: map<string, StatRow>, fill: Fill, b: Board)
    requires BoardRun(stats, gear, rows, fill, b).Ok?
    requires name in rows && Truthy(rows[name].display) && Truthy(rows[name].dispName)
    requires !Hidden(Adjusted(name, v, gear), rows[name])
    ensures var r := BoardRun(stats + [(name, v)], gear, rows, fill, b);
            r.Ok? && rows[name].dispOrder in r.value.lines && r.value.lines[rows[name].dispOrder] ==
              (rows[name].dispName.value, fill(rows[name].display.value, [Adjusted(name, v, gear)]))
  {
    BoardRunAppend(stats, [(name, v)], gear, rows, fill, b);
  }

  /** Gear crit chance is shown 5 higher: a gear value of 0 still shows, as 5,
      when the row is not a primary stat. */
  lemma CritBase(rows: map<string, StatRow>, fill: Fill, b: Board)
    requires CritBonus in rows && Truthy(rows[CritBonus].display) && Truthy(rows[CritBonus].dispName)
    requires rows[CritBonus].primaryStat != 1
    ensures BoardRun([(CritBonus, 0)], true, rows, fill, b).Ok?
    ensures rows[CritBonus].dispOrder in BoardRun([(CritBonus, 0)], true, rows, fill, b).value.lines
    ensures BoardRun([(CritBonus, 0)], true, rows, fill, b).value.lines[rows[CritBonus].dispOrder]
            == (rows[CritBonus].dispName.value, fill(rows[CritBonus].display.value, [5]))
    ensures BoardRun([(CritBonus, 0)], false, rows, fill, b) == Ok(b)
  {
  }

  function Spaces(n: nat): (r: string)
    ensures |r| == n && forall i :: 0 <= i < n ==> r[i] == ' '
  {
    seq(n, _ => ' ')
  }

  /** One stat line: the name padded on the left to `width`, then the value. */
  function StatLine(name: string, val: string, width: nat): (r: string)
    requires |name| <= width
  {
    "  " + "  " + Spaces(width - |name|) + "  " + name + "  " + val + "  " + "\n"
  }

  /** Every value starts at column `8 + width`, right after the name, which
      is right-aligned. */
  lemma ValueColumn(name: string, val: string, width: nat)
    requires |name| <= width
    ensures var line := StatLine(name, val, width);
            |line| >= 8 + width + |val| &&
            line[8 + width..8 + width + |val|] == val &&
            line[6 + width - |name|..6 + width] == name &&
            forall i :: 0 <= i < 6 + width - |name| ==> line[i] == ' '
  {
    var line := StatLine(name, val, width);
    var pre := "  " + "  " + Spaces(width - |name|) + "  ";
    assert |pre| == 6 + width - |name|;
    assert line == pre + name + ("  " + val + "  " + "\n");
    assert line == (pre + name + "  ") + val + ("  " + "\n");
  }

  /** The lines of the board at the keys `ks`. */
  function Lines(b: Board, ks: seq<int>): string
    requires Fits(b) && forall i :: 0 <= i < |ks| ==> ks[i] in b.lines
    decreases |ks|
  {
    if |ks| == 0 then ""
    else
      var k := ks[|ks| - 1];
      Lines(b, ks[..|ks| - 1]) + StatLine(b.lines[k].0, b.lines[k].1, b.maxName)
  }

  const StatsIntro := "\n\n######&nbsp;\n\n****\n**Character Stats:**\n\n"

  /** `format_stats` as a value: character stats, then gear stats, then the
      lines in ascending display order. */
  function StatsText(stats: seq<(string, int)>, gearStats: seq<(string, int)>, rows: map<string, StatRow>, fill: Fill): (r: Result<string>)
    ensures r.Raised? <==>
      (exists i :: 0 <= i < |stats| && stats[i].0 !in rows) || (exists j :: 0 <= j < |gearStats| && gearStats[j].0 !in rows)
    ensures r.Raised? ==> r.error == TypeError
    ensures r.Ok? ==> StatsIntro <= r.value
    ensures stats == [] && gearStats == [] ==> r == Ok(StatsIntro)
  {
    match BoardRun(stats, false, rows, fill, Board(map[], 0))
    case Raised(e) => Raised(e)
    case Ok(b1) =>
      match BoardRun(gearStats, true, rows, fill, b1)
      case Raised(e) => Raised(e)
      case Ok(b2) =>
        assert stats == [] && gearStats == [] ==> b2.lines.Keys == {} && StatsIntro + Lines(b2, []) == StatsIntro;
        Ok(StatsIntro + Lines(b2, Ascending(b2.lines.Keys)))
  }

  /** One loop of `format_stats`. */
  method PostStats(stats: seq<(string, int)>, gear: bool, rows: map<string, StatRow>, fill: Fill, b0: Board) returns (r: Result<Board>)
    ensures r == BoardRun(stats, gear, rows, fill, b0)
  {
    var b := b0;
    var i := 0;
    while i < |stats|
      invariant 0 <= i <= |stats|
      invariant BoardRun(stats, gear, rows, fill, b0) == BoardRun(stats[i..], gear, rows, fill, b)
    {
      var (name, v) := stats[i];
      assert stats[i..][0] == stats[i] && stats[i..][1..] == stats[i + 1..];
      if name !in rows {
        return Raised(TypeError);
      }
      var row := rows[name];
      if Truthy(row.display) && Truthy(row.dispName) {
        var val := Adjusted(name, v, gear);
        if !Hidden(val, row) {
          b := Post(b, row, fill(row.display.value, [val]));
        }
      }
      i := i + 1;
    }
    return Ok(b);
  }

  /** The loop over the sorted display orders. */
  method RenderLines(b: Board, ks: seq<int>) returns (text: string)
    requires Fits(b) && forall i :: 0 <= i < |ks| ==> ks[i] in b.lines
    ensures text == Lines(b, ks)
  {
    text := "";
    var i := 0;
    while i < |ks|
      invariant 0 <= i <= |ks|
      invariant text == Lines(b, ks[..i])
    {
      assert ks[..i + 1][..i] == ks[..i] && ks[..i + 1][i] == ks[i];
      var (name, val) := b.lines[ks[i]];
      text := text + StatLine(name, val, b.maxName);
      i := i + 1;
    }
    assert ks[..i] == ks;
  }

  /** `format_stats`: `stats` and `gearStats` in iteration order (`gearStats`
      empty when `None`). */
  method FormatStats(stats: seq<(string, int)>, gearStats: seq<(string, int)>, rows: map<string, StatRow>, fill: Fill)
    returns (r: Result<string>)
    ensures r == StatsText(stats, gearStats, rows, fill)
  {
    var b1 := PostStats(stats, false, rows, fill, Board(map[], 0));
    if b1.Raised? {
      return Raised(b1.error);
    }
    var b2 := PostStats(gearStats, true, rows, fill, b1.value);
    if b2.Raised? {
      return Raised(b2.error);
    }
    var text := RenderLines(b2.value, Ascending(b2.value.lines.Keys));
    r := Ok(StatsIntro + text);
  }
}
