/**
 * The prompt input builder of `VOCAnalyzer.analyze_group`: the count is the
 * full group size, the excerpt is the first 20 review texts joined by
 * newlines, and the three values are substituted into a fixed template.
 */
module Prompt {
  import opened Strings

  /** The template's input variables. */
  datatype Var = CategoryName | Reviews | Count

  /** A template is literal text interleaved with `{variable}` placeholders. */
  datatype Segment = Lit(text: string) | Hole(name: Var)

  /** The values substituted for the three input variables. */
  datatype Binding = Binding(categoryName: string, reviews: string, count: string)

  /** How many review texts the excerpt holds at most (`head(20)`). */
  const ExcerptLimit: nat := 20

  /** The input variables the template is declared with. */
  const InputVariables: set<Var> := {CategoryName, Reviews, Count}

  /** The fixed prompt template, split at its placeholders. */
  const Template: seq<Segment> := [
    Lit(Preamble), Hole(CategoryName), Lit(ReviewsHeading), Hole(Reviews),
    Lit(FormatHeading), Hole(CategoryName), Lit(HeadingMiddle), Hole(Count), Lit(FormatBody)
  ]

  const Preamble: string :=
    "\n        You are a VOC Analyst. specific output format is required.\n"
    + "        Analyze the following customer reviews for the category '"

  const ReviewsHeading: string := "'.\n        \n        Reviews:\n        "

  const FormatHeading: string := "\n        \n        Strict Output Format (Markdown):\n        ### N ["

  const HeadingMiddle: string := "] [Main Issue] Ratio%, "

  const FormatBody: string :=
    " cases\n"
    + "        - 이슈 요약 : (Summarize in Korean 'Eum-seum-che' style, max 30 chars)\n"
    + "        - 감정 : (1-2 keywords like 불만, 분노, 아쉬움)\n"
    + "        - | 불만 유형 | 비율 | 대표 예시 |\n"
    + "          | :--- | :--- | :--- |\n"
    + "          | (Type A) | (Approx %) | \"(Example)\" |\n"
    + "          | (Type B) | (Approx %) | \"(Example)\" |\n"
    + "        - 개선 방향 : (Actionable suggestion)\n"
    + "        \n"
    + "        Do not output anything else. Just the markdown.\n"
    + "        "

  function Lookup(b: Binding, v: Var): string
  {
    match v
    case CategoryName => b.categoryName
    case Reviews => b.reviews
    case Count => b.count
  }

  /** The text one segment contributes once the binding is substituted. */
  function SegmentText(s: Segment, b: Binding): string
  {
    match s
    case Lit(t) => t
    case Hole(v) => Lookup(b, v)
  }

  /** Template substitution: each placeholder is replaced by its value, literal text is kept. */
  function Render(t: seq<Segment>, b: Binding): string
    decreases |t|
  {
    if |t| == 0 then "" else SegmentText(t[0], b) + Render(t[1..], b)
  }

  /** The variables a template mentions. */
  function Holes(t: seq<Segment>): set<Var>
  {
    set k | 0 <= k < |t| && t[k].Hole? :: t[k].name
  }

  /** The template mentions exactly the three declared input variables. */
  lemma TemplateHoles()
    ensures Holes(Template) == InputVariables
  {
    assert Template[1].name == CategoryName && Template[3].name == Reviews && Template[7].name == Count;
    assert forall k :: 0 <= k < |Template| && Template[k].Hole? ==> k in {1, 3, 5, 7};
  }

  /** Rendering is compositional over template concatenation. */
  lemma {:induction false} RenderConcat(t1: seq<Segment>, t2: seq<Segment>, b: Binding)
    ensures Render(t1 + t2, b) == Render(t1, b) + Render(t2, b)
    decreases |t1|
  {
    if |t1| == 0 {
      assert t1 + t2 == t2;
    } else {
      assert (t1 + t2)[1..] == t1[1..] + t2;
      RenderConcat(t1[1..], t2, b);
    }
  }

  /**
   * Every segment's text survives into the rendered string: each literal
   * verbatim, each placeholder as its bound value.
   */
  lemma {:induction false} RenderContainsSegment(t: seq<Segment>, b: Binding, k: nat)
    requires k < |t|
    ensures IsSubstring(SegmentText(t[k], b), Render(t, b))
    decreases |t|
  {
    if k == 0 {
      SubstringRefl(SegmentText(t[0], b));
      SubstringWiden(SegmentText(t[0], b), "", SegmentText(t[0], b), Render(t[1..], b));
      assert "" + SegmentText(t[0], b) + Render(t[1..], b) == Render(t, b);
    } else {
      RenderContainsSegment(t[1..], b, k - 1);
      SubstringWiden(SegmentText(t[k], b), SegmentText(t[0], b), Render(t[1..], b), "");
      assert SegmentText(t[0], b) + Render(t[1..], b) + "" == Render(t, b);
    }
  }

  /** `"\n".join(texts.head(20))`: empty for no texts. */
  function Excerpt(texts: seq<string>): (excerpt: string)
    ensures texts == [] ==> excerpt == ""
  {
    Join("\n", texts[..if |texts| < ExcerptLimit then |texts| else ExcerptLimit])
  }

  /**
   * The excerpt holds exactly the first min(20, n) texts, in order: reading it
   * back line by line gives them (for texts without line breaks).
   */
  lemma ExcerptLines(texts: seq<string>)
    requires |texts| > 0
    requires forall k :: 0 <= k < |texts| ==> '\n' !in texts[k]
    ensures |texts| <= ExcerptLimit ==> Split(Excerpt(texts), '\n') == texts
    ensures |texts| > ExcerptLimit ==> Split(Excerpt(texts), '\n') == texts[..ExcerptLimit]
  {
    var head := texts[..if |texts| < ExcerptLimit then |texts| else ExcerptLimit];
    assert forall k :: 0 <= k < |head| ==> '\n' !in head[k] by {
      forall k | 0 <= k < |head| ensures '\n' !in head[k] {
        assert head[k] == texts[k];
      }
    }
    assert "\n" == ['\n'];
    SplitJoin(head, '\n');
    assert |texts| <= ExcerptLimit ==> head == texts;
  }

  /** Texts beyond the twentieth do not reach the excerpt. */
  lemma ExcerptIgnoresTail(texts: seq<string>, more: seq<string>)
    requires |texts| >= ExcerptLimit
    ensures Excerpt(texts + more) == Excerpt(texts)
  {
    assert (texts + more)[..ExcerptLimit] == texts[..ExcerptLimit];
  }

  /** The values `analyze_group` substitutes for a category's review group. */
  function Inputs(categoryName: string, texts: seq<string>): (b: Binding)
    ensures b.categoryName == categoryName
  {
    Binding(categoryName, Excerpt(texts), NatToString(|texts|))
  }

  /** The count substituted is the whole group's size, even beyond the excerpt limit. */
  lemma InputsCount(categoryName: string, texts: seq<string>)
    ensures ParseDecimal(Inputs(categoryName, texts).count) == |texts|
  {
    ParseNatToString(|texts|);
  }

  /** Each variable the template mentions has its value in the rendered string. */
  lemma RenderCarriesHoles(t: seq<Segment>, b: Binding, v: Var)
    requires v in Holes(t)
    ensures IsSubstring(Lookup(b, v), Render(t, b))
  {
    var k :| 0 <= k < |t| && t[k].Hole? && t[k].name == v;
    RenderContainsSegment(t, b, k);
  }

  /** The prompt `analyze_group` renders from the fixed template. */
  function BuildPrompt(categoryName: string, texts: seq<string>): string
  {
    Render(Template, Inputs(categoryName, texts))
  }

  /** The rendered prompt carries the category name, the excerpt and the decimal count. */
  lemma PromptCarriesInputs(categoryName: string, texts: seq<string>)
    ensures IsSubstring(categoryName, BuildPrompt(categoryName, texts))
    ensures IsSubstring(Excerpt(texts), BuildPrompt(categoryName, texts))
    ensures IsSubstring(NatToString(|texts|), BuildPrompt(categoryName, texts))
  {
    var b := Inputs(categoryName, texts);
    TemplateHoles();
    RenderCarriesHoles(Template, b, CategoryName);
    RenderCarriesHoles(Template, b, Reviews);
    RenderCarriesHoles(Template, b, Count);
  }

  /** Every literal piece of the template reaches the rendered prompt unchanged. */
  lemma PromptKeepsLiterals(categoryName: string, texts: seq<string>, k: nat)
    requires k < |Template| && Template[k].Lit?
    ensures IsSubstring(Template[k].text, BuildPrompt(categoryName, texts))
  {
    RenderContainsSegment(Template, Inputs(categoryName, texts), k);
  }
}
