/** Exercise slugs and the exercise catalog (src/features/exercise/catalog.ts),
    with the exercise names of the training program (src/features/plan/program.ts). */
module Catalog {
  import opened Wrappers

  // ---------------------------------------------------------------------
  // Slugs

  predicate IsLowerAlnum(c: char)
  {
    ('a' <= c <= 'z') || ('0' <= c <= '9')
  }

  /** The characters a slug is made of. */
  predicate IsSlugChar(c: char)
  {
    IsLowerAlnum(c) || c == '-'
  }

  /** A slug: lower-case letters, digits and single hyphens, with no hyphen
      at either end. */
  predicate IsSlug(s: string)
  {
    && (forall i :: 0 <= i < |s| ==> IsSlugChar(s[i]))
    && (|s| > 0 ==> s[0] != '-' && s[|s| - 1] != '-')
    && (forall i :: 0 <= i < |s| - 1 ==> !(s[i] == '-' && s[i + 1] == '-'))
  }

  /** `toLowerCase` on ASCII letters; every other character is kept. */
  function LowerChar(c: char): (l: char)
    ensures 'A' <= c <= 'Z' ==> l as int == c as int + 32
    ensures !('A' <= c <= 'Z') ==> l == c
  {
    if 'A' <= c <= 'Z' then (c as int + 32) as char else c
  }

  function ToLower(s: string): (r: string)
    ensures |r| == |s|
    ensures forall i :: 0 <= i < |s| ==> r[i] == LowerChar(s[i])
  {
    seq(|s|, i requires 0 <= i < |s| => LowerChar(s[i]))
  }

  /** `replace(/\+/g, ' plus ')`. */
  function ReplacePlus(s: string): (r: string)
    ensures (forall i :: 0 <= i < |s| ==> s[i] != '+') ==> r == s
  {
    if s == [] then [] else PlusPiece(s[0]) + ReplacePlus(s[1..])
  }

  /** What one character becomes under `ReplacePlus`. */
  function PlusPiece(c: char): string
  {
    if c == '+' then " plus " else [c]
  }

  /** What is left of `s` after its leading characters outside `[a-z0-9]`. */
  function DropSeparators(s: string): (r: string)
    ensures |r| <= |s|
    ensures r == [] || IsLowerAlnum(r[0])
    ensures (s == [] || IsLowerAlnum(s[0])) ==> r == s
  {
    if s == [] || IsLowerAlnum(s[0]) then s else DropSeparators(s[1..])
  }

  /** `replace(/[^a-z0-9]+/g, '-')`: every maximal run of characters outside
      `[a-z0-9]` becomes one hyphen. */
  function Collapse(s: string): (r: string)
    ensures forall i :: 0 <= i < |r| ==> IsSlugChar(r[i])
    ensures forall i :: 0 <= i < |r| - 1 ==> !(r[i] == '-' && r[i + 1] == '-')
    ensures |r| > 0 && r[0] == '-' ==> s != [] && !IsLowerAlnum(s[0])
    decreases |s|
  {
    if s == [] then []
    else if IsLowerAlnum(s[0]) then [s[0]] + Collapse(s[1..])
    else
      var rest := DropSeparators(s[1..]);
      ['-'] + Collapse(rest)
  }

  /** `replace(/(^-|-$)/g, '')`: one hyphen is removed from each end. A text
      without end hyphens is kept, and a text of slug characters without two
      hyphens in a row becomes a slug. */
  function TrimHyphens(s: string): (r: string)
    ensures |s| - 2 <= |r| <= |s|
    ensures r == s || (|s| >= 1 && (r == s[1..] || r == s[..|s| - 1])) || (|s| >= 2 && r == s[1..|s| - 1])
    ensures (s == [] || (s[0] != '-' && s[|s| - 1] != '-')) ==> r == s
    ensures ((forall i :: 0 <= i < |s| ==> IsSlugChar(s[i]))
             && (forall i :: 0 <= i < |s| - 1 ==> !(s[i] == '-' && s[i + 1] == '-'))) ==> IsSlug(r)
  {
    var a := if |s| > 0 && s[0] == '-' then s[1..] else s;
    assert forall i :: 0 <= i < |a| ==> a[i] == s[i + |s| - |a|];
    if |a| > 0 && a[|a| - 1] == '-' then a[..|a| - 1] else a
  }

  /** `slugify`: every slug is a slug, only `a`-`z`, `0`-`9` and `-`, no
      hyphen at either end and never two in a row. */
  function Slugify(input: string): (slug: string)
    ensures IsSlug(slug)
  {
    TrimHyphens(Collapse(ReplacePlus(ToLower(input))))
  }

  /** A slug's own slug is itself, and only slugs are kept unchanged. */
  lemma {:induction false} SlugifyFixedPoints(s: string)
    ensures Slugify(s) == s <==> IsSlug(s)
  {
    if IsSlug(s) {
      LowerKeepsSlugChars(s);
      assert ReplacePlus(s) == s;
      CollapseKeepsSingleHyphens(s);
    }
  }

  /** `slugify(slugify(x)) == slugify(x)`. */
  lemma SlugifyIdempotent(input: string)
    ensures Slugify(Slugify(input)) == Slugify(input)
  {
    SlugifyFixedPoints(Slugify(input));
  }

  lemma LowerKeepsSlugChars(s: string)
    requires forall i :: 0 <= i < |s| ==> IsSlugChar(s[i])
    ensures ToLower(s) == s
  {
  }

  /** A string of slug characters with single inner hyphens and no leading
      hyphen collapses to itself. */
  lemma {:induction false} CollapseKeepsSingleHyphens(s: string)
    requires forall i :: 0 <= i < |s| ==> IsSlugChar(s[i])
    requires |s| > 0 ==> s[0] != '-'
    requires forall i :: 0 <= i < |s| - 1 ==> !(s[i] == '-' && s[i + 1] == '-')
    ensures Collapse(s) == s
    decreases |s|
  {
    if s != [] {
      assert IsLowerAlnum(s[0]);
      var rest := s[1..];
      assert Collapse(s) == [s[0]] + Collapse(rest);
      if |rest| > 0 && rest[0] == '-' {
        // An inner hyphen: a letter or digit follows it, or nothing does.
        var t := rest[1..];
        assert t == s[2..];
        assert |t| > 0 ==> t[0] == s[2] && s[2] != '-';
        assert t == [] || IsLowerAlnum(t[0]);
        assert DropSeparators(t) == t;
        assert Collapse(rest) == ['-'] + Collapse(t);
        CollapseKeepsSingleHyphens(t);
        assert rest == ['-'] + t;
      } else {
        CollapseKeepsSingleHyphens(rest);
      }
      assert s == [s[0]] + rest;
    }
  }

  /** The title of line 118: the `+` becomes the word `plus`. */
  lemma SlugifyPlusExample(title: string)
    requires title == "Cable Curl + Triceps Pressdown"
    ensures Slugify(title) == "cable-curl-plus-triceps-pressdown"
  {
    LowerExample(title);
    ReplacePlusOne("cable curl ", " triceps pressdown");
    CollapseExample(ReplacePlus(ToLower(title)));
  }

  lemma LowerExample(title: string)
    requires title == "Cable Curl + Triceps Pressdown"
    ensures ToLower(title) == "cable curl " + "+" + " triceps pressdown"
  {
  }

  /** A single `+` between two parts without one becomes ` plus `. */
  lemma ReplacePlusOne(a: string, b: string)
    requires forall i :: 0 <= i < |a| ==> a[i] != '+'
    requires forall i :: 0 <= i < |b| ==> b[i] != '+'
    ensures ReplacePlus(a + "+" + b) == a + " plus " + b
  {
    ReplacePlusAppend(a + "+", b);
    ReplacePlusAppend(a, "+");
    assert "+"[1..] == [];
    assert ReplacePlus("+") == " plus ";
  }

  lemma CollapseExample(s: string)
    requires s == "cable curl " + " plus " + " triceps pressdown"
    ensures Collapse(s) == "cable-curl-plus-triceps-pressdown"
  {
    ExampleWords(s);
    CollapseFiveWords("cable", " ", "curl", "  ", "plus", "  ", "triceps", " ", "pressdown");
    ExampleSlugWords();
  }

  lemma ExampleWords(s: string)
    requires s == "cable curl " + " plus " + " triceps pressdown"
    ensures s == "cable" + (" " + ("curl" + ("  " + ("plus" + ("  " + ("triceps" + (" " + "pressdown")))))))
  {
  }

  lemma ExampleSlugWords()
    ensures "cable-curl-plus-triceps-pressdown"
      == "cable" + ("-" + ("curl" + ("-" + ("plus" + ("-" + ("triceps" + ("-" + "pressdown")))))))
  {
  }

  /** Five words joined by separator runs collapse to the words joined by hyphens. */
  lemma CollapseFiveWords(w1: string, g1: string, w2: string, g2: string, w3: string, g3: string, w4: string, g4: string, w5: string)
    requires forall i :: 0 <= i < |w1| ==> IsLowerAlnum(w1[i])
    requires |w2| > 0 && forall i :: 0 <= i < |w2| ==> IsLowerAlnum(w2[i])
    requires |w3| > 0 && forall i :: 0 <= i < |w3| ==> IsLowerAlnum(w3[i])
    requires |w4| > 0 && forall i :: 0 <= i < |w4| ==> IsLowerAlnum(w4[i])
    requires |w5| > 0 && forall i :: 0 <= i < |w5| ==> IsLowerAlnum(w5[i])
    requires |g1| > 0 && forall i :: 0 <= i < |g1| ==> !IsLowerAlnum(g1[i])
    requires |g2| > 0 && forall i :: 0 <= i < |g2| ==> !IsLowerAlnum(g2[i])
    requires |g3| > 0 && forall i :: 0 <= i < |g3| ==> !IsLowerAlnum(g3[i])
    requires |g4| > 0 && forall i :: 0 <= i < |g4| ==> !IsLowerAlnum(g4[i])
    ensures Collapse(w1 + (g1 + (w2 + (g2 + (w3 + (g3 + (w4 + (g4 + w5))))))))
      == w1 + ("-" + (w2 + ("-" + (w3 + ("-" + (w4 + ("-" + w5)))))))
  {
    CollapseWord(w5, []);
    assert w5 + [] == w5;
    CollapseGap(g4, w5);
    CollapseSeparatedWord(g3, w4, g4 + w5);
    CollapseSeparatedWord(g2, w3, g3 + (w4 + (g4 + w5)));
    CollapseSeparatedWord(g1, w2, g2 + (w3 + (g3 + (w4 + (g4 + w5)))));
    CollapseWord(w1, g1 + (w2 + (g2 + (w3 + (g3 + (w4 + (g4 + w5)))))));
  }

  /** A separator run followed by a word becomes a hyphen followed by the word. */
  lemma CollapseSeparatedWord(g: string, w: string, rest: string)
    requires |g| > 0 && forall i :: 0 <= i < |g| ==> !IsLowerAlnum(g[i])
    requires |w| > 0 && forall i :: 0 <= i < |w| ==> IsLowerAlnum(w[i])
    ensures Collapse(g + (w + rest)) == "-" + (w + Collapse(rest))
  {
    CollapseGap(g, w + rest);
    CollapseWord(w, rest);
  }

  /** `+` is replaced wherever it occurs, independently of its neighbours. */
  lemma {:induction false} ReplacePlusAppend(a: string, b: string)
    ensures ReplacePlus(a + b) == ReplacePlus(a) + ReplacePlus(b)
  {
    if a != [] {
      assert (a + b)[0] == a[0] && (a + b)[1..] == a[1..] + b;
      ReplacePlusAppend(a[1..], b);
      calc {
        ReplacePlus(a + b);
        PlusPiece(a[0]) + ReplacePlus(a[1..] + b);
        PlusPiece(a[0]) + (ReplacePlus(a[1..]) + ReplacePlus(b));
        (PlusPiece(a[0]) + ReplacePlus(a[1..])) + ReplacePlus(b);
      }
    } else {
      assert a + b == b;
    }
  }

  /** Letters and digits pass through `Collapse` unchanged. */
  lemma {:induction false} CollapseWord(w: string, rest: string)
    requires forall i :: 0 <= i < |w| ==> IsLowerAlnum(w[i])
    ensures Collapse(w + rest) == w + Collapse(rest)
    decreases |w|
  {
    if w != [] {
      assert (w + rest)[0] == w[0] && (w + rest)[1..] == w[1..] + rest;
      CollapseWord(w[1..], rest);
      assert w == [w[0]] + w[1..];
    } else {
      assert w + rest == rest;
    }
  }

  /** A run of separators before a letter, a digit or the end becomes one hyphen. */
  lemma CollapseGap(g: string, rest: string)
    requires |g| > 0 && forall i :: 0 <= i < |g| ==> !IsLowerAlnum(g[i])
    requires rest == [] || IsLowerAlnum(rest[0])
    ensures Collapse(g + rest) == "-" + Collapse(rest)
  {
    var s := g + rest;
    assert s[0] == g[0] && !IsLowerAlnum(s[0]);
    assert s[1..] == g[1..] + rest;
    DropSeparatorsGap(g[1..], rest);
    assert DropSeparators(s[1..]) == rest;
    assert Collapse(s) == ['-'] + Collapse(DropSeparators(s[1..]));
  }

  lemma {:induction false} DropSeparatorsGap(g: string, rest: string)
    requires forall i :: 0 <= i < |g| ==> !IsLowerAlnum(g[i])
    requires rest == [] || IsLowerAlnum(rest[0])
    ensures DropSeparators(g + rest) == rest
  {
    if g != [] {
      assert (g + rest)[0] == g[0] && (g + rest)[1..] == g[1..] + rest;
      DropSeparatorsGap(g[1..], rest);
    } else {
      assert g + rest == rest;
    }
  }

  // ---------------------------------------------------------------------
  // The catalog

  /** A catalog entry. Its descriptive content (options, other names, cues,
      demo link, image) is not part of this model. */
  datatype ExerciseDetail = ExerciseDetail(slug: string, title: string)

  /** `slot`: an entry whose slug is made from its title. */
  function Slot(title: string): (e: ExerciseDetail)
    ensures e.title == title && e.slug == Slugify(title)
    ensures IsSlug(e.slug) && Slugify(e.slug) == e.slug
  {
    SlugifyFixedPoints(Slugify(title));
    ExerciseDetail(Slugify(title), title)
  }

  const CATALOG_TITLES: seq<string> := [
    "Goblet Squat / Leg Press",
    "DB Bench Press / Chest Press",
    "Seated Cable Row / Chest-Supported Row",
    "DB Romanian Deadlift",
    "Dead Bug / Cable Crunch",
    "Trap Bar Deadlift / DB RDL",
    "Lat Pulldown / Assisted Pull-up",
    "DB Shoulder Press / Machine Press",
    "Split Squat / Reverse Lunge",
    "Farmer Carry / Plank",
    "Hack Squat / Split Squat (variant)",
    "Incline DB Press / Push-ups",
    "1-Arm DB Row / Cable Row",
    "Hip Thrust / Glute Bridge",
    "Cable Curl + Triceps Pressdown"
  ]

  /** One slot per title, in order. */
  function SlotsOf(titles: seq<string>): (catalog: seq<ExerciseDetail>)
    ensures |catalog| == |titles|
    ensures forall i :: 0 <= i < |titles| ==> catalog[i] == ExerciseDetail(Slugify(titles[i]), titles[i])
  {
    seq(|titles|, i requires 0 <= i < |titles| => Slot(titles[i]))
  }

  /** `EXERCISE_CATALOG`: every entry's slug is the slug of its title, and
      no slug has a hyphen at an end or two in a row. */
  function ExerciseCatalog(): (catalog: seq<ExerciseDetail>)
    ensures |catalog| == |CATALOG_TITLES|
    ensures forall i :: 0 <= i < |catalog| ==>
      catalog[i].title == CATALOG_TITLES[i] && catalog[i].slug == Slugify(CATALOG_TITLES[i])
    ensures forall i :: 0 <= i < |catalog| ==> IsSlug(catalog[i].slug)
  {
    var titles := CATALOG_TITLES;
    SlotsOf(titles)
  }

  /** Looking a slug up among entries that pair each title with a slug
      finds the entry of the first title with that slug. */
  lemma {:induction false} FindAmongSlugs(entries: seq<ExerciseDetail>, titles: seq<string>, slugs: seq<string>, slug: string)
    requires |entries| == |titles| == |slugs|
    requires forall i :: 0 <= i < |entries| ==> entries[i] == ExerciseDetail(slugs[i], titles[i])
    ensures var r := FindFirst(entries, SlugField, slug);
      && (r.None? <==> forall i :: 0 <= i < |titles| ==> slugs[i] != slug)
      && (r.Some? ==> exists i ::
           && 0 <= i < |titles|
           && r.value == ExerciseDetail(slug, titles[i]) && slugs[i] == slug
           && forall j :: 0 <= j < i ==> slugs[j] != slug)
  {
    var r := FindFirst(entries, SlugField, slug);
    if r.Some? {
      var i :| 0 <= i < |entries| && entries[i] == r.value && KeyOf(r.value, SlugField) == slug
        && forall j :: 0 <= j < i ==> KeyOf(entries[j], SlugField) != slug;
      assert r.value == ExerciseDetail(slug, titles[i]) && slugs[i] == slug;
    }
  }

  /** Looking a slug up among the slots of some titles finds the slot of the
      first title with that slug. */
  lemma FindInSlots(titles: seq<string>, slug: string)
    ensures var r := FindFirst(SlotsOf(titles), SlugField, slug);
      && (r.None? <==> forall i :: 0 <= i < |titles| ==> Slugify(titles[i]) != slug)
      && (r.Some? ==> exists i ::
           && 0 <= i < |titles|
           && r.value == ExerciseDetail(slug, titles[i]) && Slugify(titles[i]) == slug
           && forall j :: 0 <= j < i ==> Slugify(titles[j]) != slug)
  {
    var slugs := seq(|titles|, i requires 0 <= i < |titles| => Slugify(titles[i]));
    FindAmongSlugs(SlotsOf(titles), titles, slugs, slug);
  }

  /** The field of an entry that a search compares. */
  datatype Field = SlugField | TitleField

  function KeyOf(e: ExerciseDetail, field: Field): string
  {
    match field
    case SlugField => e.slug
    case TitleField => e.title
  }

  /** `find((e) => e.slug === key)` and `find((e) => e.title === key)`: the
      first entry whose field equals the key, or none. */
  function FindFirst(entries: seq<ExerciseDetail>, field: Field, key: string): (r: Option<ExerciseDetail>)
    ensures r.None? <==> forall i :: 0 <= i < |entries| ==> KeyOf(entries[i], field) != key
    ensures r.Some? ==>
      exists i :: 0 <= i < |entries| && entries[i] == r.value && KeyOf(r.value, field) == key
        && forall j :: 0 <= j < i ==> KeyOf(entries[j], field) != key
  {
    if entries == [] then None
    else if KeyOf(entries[0], field) == key then
      assert entries[0] == entries[0];
      Some(entries[0])
    else
      var r := FindFirst(entries[1..], field, key);
      assert forall i :: 0 < i < |entries| ==> entries[i] == entries[1..][i - 1];
      r
  }

  /** `getExerciseBySlug`: the first catalog entry with that slug, or none. */
  function GetExerciseBySlug(slug: string): (r: Option<ExerciseDetail>)
    ensures r.None? <==> forall i :: 0 <= i < |CATALOG_TITLES| ==> Slugify(CATALOG_TITLES[i]) != slug
    ensures r.Some? ==> exists i ::
      && 0 <= i < |CATALOG_TITLES|
      && r.value == ExerciseDetail(slug, CATALOG_TITLES[i]) && Slugify(CATALOG_TITLES[i]) == slug
      && forall j :: 0 <= j < i ==> Slugify(CATALOG_TITLES[j]) != slug
  {
    var titles := CATALOG_TITLES;
    FindInSlots(titles, slug);
    assert ExerciseCatalog() == SlotsOf(titles);
    FindFirst(ExerciseCatalog(), SlugField, slug)
  }

  /** `getExerciseSlugFromName`: the slug of an exactly matching entry if
      there is one, otherwise the name's own slug; either way the name's slug. */
  function GetExerciseSlugFromName(name: string): (slug: string)
    ensures slug == Slugify(name)
    ensures IsSlug(slug)
  {
    var exact := FindFirst(ExerciseCatalog(), TitleField, name);
    if exact.Some? then exact.value.slug else Slugify(name)
  }

  // ---------------------------------------------------------------------
  // The program's exercise names

  datatype DayCode = A | B | C

  datatype PlannedExercise = PlannedExercise(name: string, sets: nat, repMin: nat, repMax: nat)

  /** `PROGRAM`: five exercises a day, each of two or three sets over a
      rep range that is not empty. */
  function Program(day: DayCode): (plan: seq<PlannedExercise>)
    ensures |plan| == 5
    ensures forall k :: 0 <= k < |plan| ==> 2 <= plan[k].sets <= 3 && 1 <= plan[k].repMin <= plan[k].repMax
  {
    match day
    case A => [
      PlannedExercise("Goblet Squat / Leg Press", 3, 8, 12),
      PlannedExercise("DB Bench Press / Chest Press", 3, 8, 12),
      PlannedExercise("Seated Cable Row / Chest-Supported Row", 3, 8, 12),
      PlannedExercise("DB Romanian Deadlift", 2, 8, 12),
      PlannedExercise("Dead Bug / Cable Crunch", 2, 10, 15)]
    case B => [
      PlannedExercise("Trap Bar Deadlift / DB RDL", 3, 6, 10),
      PlannedExercise("Lat Pulldown / Assisted Pull-up", 3, 8, 12),
      PlannedExercise("DB Shoulder Press / Machine Press", 3, 8, 12),
      PlannedExercise("Split Squat / Reverse Lunge", 2, 8, 12),
      PlannedExercise("Farmer Carry / Plank", 2, 1, 1)]
    case C => [
      PlannedExercise("Hack Squat / Split Squat (variant)", 3, 8, 12),
      PlannedExercise("Incline DB Press / Push-ups", 3, 8, 12),
      PlannedExercise("1-Arm DB Row / Cable Row", 3, 8, 12),
      PlannedExercise("Hip Thrust / Glute Bridge", 2, 8, 12),
      PlannedExercise("Cable Curl + Triceps Pressdown", 2, 10, 15)]
  }

  /** The catalog covers the program: exercise `k` of day A, B or C is
      catalog title `k`, `5 + k` or `10 + k`, so every planned name is the
      title of a catalog entry. */
  lemma ProgramCovered(day: DayCode, k: nat)
    requires k < |Program(day)|
    ensures exists i :: 0 <= i < |CATALOG_TITLES| && CATALOG_TITLES[i] == Program(day)[k].name
  {
    var offset := match day case A => 0 case B => 5 case C => 10;
    ProgramTitlesAt(day, offset, k);
  }

  /** Exercise `k` of one day, against the catalog title at `offset + k`. */
  lemma ProgramTitlesAt(day: DayCode, offset: nat, k: nat)
    requires offset == match day case A => 0 case B => 5 case C => 10
    requires k < 5
    ensures offset + k < |CATALOG_TITLES| && CATALOG_TITLES[offset + k] == Program(day)[k].name
  {
    var titles := CATALOG_TITLES;
    match day
    case A => assert titles[..5] == [Program(A)[0].name, Program(A)[1].name, Program(A)[2].name, Program(A)[3].name, Program(A)[4].name];
    case B => assert titles[5..10] == [Program(B)[0].name, Program(B)[1].name, Program(B)[2].name, Program(B)[3].name, Program(B)[4].name];
    case C => assert titles[10..] == [Program(C)[0].name, Program(C)[1].name, Program(C)[2].name, Program(C)[3].name, Program(C)[4].name];
  }
}
