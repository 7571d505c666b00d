/**
 * Content models of DTDX element declarations and the text they are written back as.
 *
 * A content model is a tree of fragments: #PCDATA, a reference to an element, or a
 * group, sequence, choice or `all` list of child fragments, each followed by an
 * optional multiplicity. A missing fragment (a nil pointer in the parser) is `Nil`.
 *
 * `String` and `BaseString` render a fragment as the parser does. In that code the
 * choice and `all` cases have empty bodies and a group with several children falls
 * through into the empty choice case, so all three render as "EMPTY".
 * `FixedString` is the rendering evidently meant, in which those cases share the
 * sequence's join; `AgreesWhereUnaffected` and `AffectedDiffers` relate the two.
 */
module ContentModels {

  datatype Option<T> = None | Some(value: T)

  /** The kind of a content-model fragment. */
  datatype ModelType = UnknownModel | PCDataModel | ElementModel | GroupModel | SequenceModel | ChoiceModel | AllModel

  /** How often a fragment may occur. */
  datatype Multiplicity = Single | Optional | ZeroOrMore | OneOrMore
  {
    /** The text written after a fragment with this multiplicity. */
    function Suffix(): string {
      match this
      case Single => ""
      case Optional => "?"
      case ZeroOrMore => "*"
      case OneOrMore => "+"
    }
  }

  /** A declared element. Its attributes and its own content model are not read when rendering. */
  datatype Element = Element(name: string)

  /** A content-model fragment; `Nil` stands for a missing one. */
  datatype ContentModel =
    | Nil
    | Node(children: seq<ContentModel>, element: Option<Element>, modelType: ModelType, multiplicity: Multiplicity)

  /**
   * `getSep`: the text between the children of a list. Choice and `all` lists each have
   * their own separator; it never holds a parenthesis and ends with a space.
   */
  function GetSep(mt: ModelType): (sep: string)
    ensures (sep == " | ") <==> mt == ChoiceModel
    ensures (sep == " & ") <==> mt == AllModel
    ensures 2 <= |sep| && sep[|sep| - 1] == ' ' && '(' !in sep && ')' !in sep
  {
    match mt
    case ChoiceModel => " | "
    case AllModel => " & "
    case _ => ", "
  }

  /** The parts in order with `sep` between neighbours. */
  function Join(parts: seq<string>, sep: string): string {
    if |parts| == 0 then ""
    else if |parts| == 1 then parts[0]
    else parts[0] + sep + Join(parts[1..], sep)
  }

  // ---------------------------------------------------------------- as written

  /**
   * Fragments the parser's rendering can write without dereferencing a nil element or
   * indexing an empty child list: element fragments name an element, sequences have a
   * first child, and every child that is rendered is itself renderable.
   */
  predicate Renderable(c: ContentModel)
    decreases c
  {
    c.Nil? ||
    match c.modelType
    case ElementModel => c.element.Some?
    case GroupModel => |c.children| == 1 ==> Renderable(c.children[0])
    case SequenceModel => |c.children| >= 1 && forall i :: 0 <= i < |c.children| ==> Renderable(c.children[i])
    case _ => true
  }

  /** `ContentModel.String`: "EMPTY" for a missing fragment, else its base text and its multiplicity. */
  function String(c: ContentModel): (s: string)
    requires Renderable(c)
    ensures c.Nil? ==> s == "EMPTY"
    ensures c.Node? && c.multiplicity != Single ==> 1 <= |s| && [s[|s| - 1]] == c.multiplicity.Suffix()
    decreases c, 2
  {
    if c.Nil? then "EMPTY" else BaseString(c) + c.multiplicity.Suffix()
  }

  /**
   * `baseString` as written. A group with other than one child falls through into the
   * choice case; the choice and `all` cases are empty, so these, like an unknown
   * fragment, leave the switch and return "EMPTY".
   */
  function BaseString(c: ContentModel): (s: string)
    requires c.Node? && Renderable(c)
    ensures c.modelType == SequenceModel || (c.modelType == GroupModel && |c.children| == 1)
            ==> 2 <= |s| && s[0] == '(' && s[|s| - 1] == ')'
    ensures c.modelType in {ChoiceModel, AllModel, UnknownModel} || (c.modelType == GroupModel && |c.children| != 1)
            ==> s == "EMPTY"
    decreases c, 1
  {
    match c.modelType
    case PCDataModel => "(#PCDATA)"
    case ElementModel => c.element.value.name
    case GroupModel => if |c.children| == 1 then "(" + String(c.children[0]) + ")" else "EMPTY"
    case SequenceModel => "(" + Join(ChildStrings(c, 0), GetSep(c.modelType)) + ")"
    case _ => "EMPTY"
  }

  /** The renderings of the children of `c` from the `i`-th on. */
  function ChildStrings(c: ContentModel, i: nat): (parts: seq<string>)
    requires c.Node? && i <= |c.children|
    requires forall j :: i <= j < |c.children| ==> Renderable(c.children[j])
    ensures |parts| == |c.children| - i
    ensures forall k :: 0 <= k < |parts| ==> parts[k] == String(c.children[i + k])
    decreases c, 0, |c.children| - i
  {
    if i == |c.children| then [] else [String(c.children[i])] + ChildStrings(c, i + 1)
  }

  /**
   * The buffer loop that writes a list: "(", the first child, then a separator and the
   * next child for each further child, then ")". It is what `BaseString` gives a sequence.
   */
  method WriteList(c: ContentModel) returns (s: string)
    requires c.Node? && c.modelType == SequenceModel && Renderable(c)
    ensures s == "(" + Join(ChildStrings(c, 0), GetSep(c.modelType)) + ")"
    ensures s == BaseString(c)
  {
    ghost var parts := ChildStrings(c, 0);
    var sep := GetSep(c.modelType);
    s := "(" + String(c.children[0]);
    assert parts[..1] == [parts[0]];
    var i := 1;
    while i < |c.children|
      invariant 1 <= i <= |c.children|
      invariant s == "(" + Join(parts[..i], sep)
    {
      WriteStep(parts, sep, i);
      s := s + sep + String(c.children[i]);
      i := i + 1;
    }
    assert parts[..i] == parts;
    s := s + ")";
    SequenceBase(c);
  }

  /** One more child written: the prefix of parts grows by the separator and that part. */
  lemma WriteStep(parts: seq<string>, sep: string, i: nat)
    requires 1 <= i < |parts|
    ensures "(" + Join(parts[..i + 1], sep) == "(" + Join(parts[..i], sep) + sep + parts[i]
  {
    JoinSnoc(parts[..i], sep, parts[i]);
    assert parts[..i + 1] == parts[..i] + [parts[i]];
  }

  /** A sequence's base text is its children's renderings joined by a comma, in parentheses. */
  lemma SequenceBase(c: ContentModel)
    requires c.Node? && c.modelType == SequenceModel && Renderable(c)
    ensures BaseString(c) == "(" + Join(ChildStrings(c, 0), GetSep(c.modelType)) + ")"
  {
  }

  /** Appending one more part adds a separator and that part. */
  lemma {:induction false} JoinSnoc(parts: seq<string>, sep: string, p: string)
    requires |parts| >= 1
    ensures Join(parts + [p], sep) == Join(parts, sep) + sep + p
    decreases |parts|
  {
    if |parts| > 1 {
      assert (parts + [p])[1..] == parts[1..] + [p];
      JoinSnoc(parts[1..], sep, p);
    }
  }

  /** A missing fragment renders "EMPTY"; any other is its base text followed by one of "", "?", "*", "+". */
  lemma Rendering(c: ContentModel)
    requires Renderable(c)
    ensures c.Nil? ==> String(c) == "EMPTY"
    ensures c.Node? ==> (String(c) == BaseString(c) + c.multiplicity.Suffix()
                         && c.multiplicity.Suffix() in ["", "?", "*", "+"])
  {
  }

  /** #PCDATA renders "(#PCDATA)", an element fragment the element's name. */
  lemma LeafRendering(c: ContentModel)
    requires c.Node? && Renderable(c)
    ensures c.modelType == PCDataModel ==> String(c) == "(#PCDATA)" + c.multiplicity.Suffix()
    ensures c.modelType == ElementModel ==> String(c) == c.element.value.name + c.multiplicity.Suffix()
  {
  }

  /** A group of one child renders that child in parentheses. */
  lemma SingleGroupRendering(c: ContentModel)
    requires c.Node? && c.modelType == GroupModel && |c.children| == 1 && Renderable(c)
    ensures String(c) == "(" + String(c.children[0]) + ")" + c.multiplicity.Suffix()
  {
  }

  /** A sequence renders its children's renderings, comma-separated, in parentheses. */
  lemma SequenceRendering(c: ContentModel)
    requires c.Node? && c.modelType == SequenceModel && Renderable(c)
    ensures var parts := ChildStrings(c, 0);
      && |parts| == |c.children|
      && (forall k :: 0 <= k < |parts| ==> parts[k] == String(c.children[k]))
      && String(c) == "(" + Join(parts, ", ") + ")" + c.multiplicity.Suffix()
  {
  }

  /** The separators of choice, `all` and every other list. */
  lemma Separators(mt: ModelType)
    ensures GetSep(ChoiceModel) == " | " && GetSep(AllModel) == " & "
    ensures mt != ChoiceModel && mt != AllModel ==> GetSep(mt) == ", "
  {
  }

  /** As written, choice, `all`, a group of other than one child and an unknown fragment render "EMPTY". */
  lemma EmptyCases(c: ContentModel)
    requires c.Node? && Renderable(c)
    requires c.modelType in {ChoiceModel, AllModel, UnknownModel} || (c.modelType == GroupModel && |c.children| != 1)
    ensures String(c) == "EMPTY" + c.multiplicity.Suffix()
  {
  }

  /** The choice (a | b) is written back as "EMPTY". */
  lemma ChoiceRendersEmpty()
    ensures var a, b := Node([], Some(Element("a")), ElementModel, Single), Node([], Some(Element("b")), ElementModel, Single);
      String(Node([a, b], None, ChoiceModel, Single)) == "EMPTY"
  {
  }

  // ---------------------------------------------------------------- corrected

  /**
   * Fragments the corrected rendering can write: element fragments name an element,
   * every list has a first child, and all children are renderable.
   */
  predicate FixedRenderable(c: ContentModel)
    decreases c
  {
    c.Nil? ||
    match c.modelType
    case ElementModel => c.element.Some?
    case UnknownModel | PCDataModel => true
    case _ => |c.children| >= 1 && forall i :: 0 <= i < |c.children| ==> FixedRenderable(c.children[i])
  }

  /** The rendering with choice, `all` and several-child groups written like a sequence. */
  function FixedString(c: ContentModel): (s: string)
    requires FixedRenderable(c)
    ensures c.Nil? ==> s == "EMPTY"
    ensures c.Node? && c.multiplicity != Single ==> 1 <= |s| && [s[|s| - 1]] == c.multiplicity.Suffix()
    decreases c, 2
  {
    if c.Nil? then "EMPTY" else FixedBaseString(c) + c.multiplicity.Suffix()
  }

  /** `baseString` with the group, choice and `all` cases falling through into the list case. */
  function FixedBaseString(c: ContentModel): (s: string)
    requires c.Node? && FixedRenderable(c)
    ensures c.modelType in {GroupModel, SequenceModel, ChoiceModel, AllModel} ==> 2 <= |s| && s[0] == '(' && s[|s| - 1] == ')'
    ensures c.modelType == UnknownModel ==> s == "EMPTY"
    decreases c, 1
  {
    match c.modelType
    case PCDataModel => "(#PCDATA)"
    case ElementModel => c.element.value.name
    case UnknownModel => "EMPTY"
    case GroupModel =>
      if |c.children| == 1 then "(" + FixedString(c.children[0]) + ")"
      else "(" + Join(FixedChildStrings(c, 0), GetSep(c.modelType)) + ")"
    case _ => "(" + Join(FixedChildStrings(c, 0), GetSep(c.modelType)) + ")"
  }

  /** The corrected renderings of the children of `c` from the `i`-th on. */
  function FixedChildStrings(c: ContentModel, i: nat): (parts: seq<string>)
    requires c.Node? && i <= |c.children|
    requires forall j :: i <= j < |c.children| ==> FixedRenderable(c.children[j])
    ensures |parts| == |c.children| - i
    ensures forall k :: 0 <= k < |parts| ==> parts[k] == FixedString(c.children[i + k])
    decreases c, 0, |c.children| - i
  {
    if i == |c.children| then [] else [FixedString(c.children[i])] + FixedChildStrings(c, i + 1)
  }

  /** Every list, a group of any size included, renders its children joined by its separator. */
  lemma FixedListRendering(c: ContentModel)
    requires c.Node? && c.modelType in {GroupModel, SequenceModel, ChoiceModel, AllModel} && FixedRenderable(c)
    ensures FixedString(c) == "(" + Join(FixedChildStrings(c, 0), GetSep(c.modelType)) + ")" + c.multiplicity.Suffix()
  {
    if c.modelType == GroupModel && |c.children| == 1 {
      assert FixedChildStrings(c, 0) == [FixedString(c.children[0])];
    }
  }

  /** The choice (a | b) under the corrected rendering. */
  lemma FixedChoiceExample()
    ensures var a, b := Node([], Some(Element("a")), ElementModel, Single), Node([], Some(Element("b")), ElementModel, Single);
      FixedString(Node([a, b], None, ChoiceModel, ZeroOrMore)) == "(a | b)*"
  {
    var a, b := Node([], Some(Element("a")), ElementModel, Single), Node([], Some(Element("b")), ElementModel, Single);
    var c := Node([a, b], None, ChoiceModel, ZeroOrMore);
    assert FixedString(a) == "a" && FixedString(b) == "b";
    assert FixedChildStrings(c, 0) == ["a", "b"];
    assert Join(["a", "b"], " | ") == "a | b";
  }

  /** No choice, `all` or several-child group is rendered: the parser's code already writes these as meant. */
  predicate Unaffected(c: ContentModel)
    decreases c
  {
    c.Nil? ||
    match c.modelType
    case ChoiceModel | AllModel => false
    case GroupModel => |c.children| == 1 && Unaffected(c.children[0])
    case SequenceModel => forall i :: 0 <= i < |c.children| ==> Unaffected(c.children[i])
    case _ => true
  }

  /** On fragments the defect does not reach, both renderings agree. */
  lemma {:induction false} AgreesWhereUnaffected(c: ContentModel)
    requires Renderable(c) && Unaffected(c)
    ensures FixedRenderable(c) && FixedString(c) == String(c)
    decreases c, 1
  {
    if c.Node? {
      match c.modelType
      case GroupModel =>
        AgreesWhereUnaffected(c.children[0]);
      case SequenceModel =>
        ChildrenAgree(c, 0);
      case _ =>
    }
  }

  lemma {:induction false} ChildrenAgree(c: ContentModel, i: nat)
    requires c.Node? && c.modelType == SequenceModel && Renderable(c) && Unaffected(c) && i <= |c.children|
    ensures forall j :: i <= j < |c.children| ==> FixedRenderable(c.children[j])
    ensures (forall j :: i <= j < |c.children| ==> FixedRenderable(c.children[j]))
            && FixedChildStrings(c, i) == ChildStrings(c, i)
    decreases c, 0, |c.children| - i
  {
    if i < |c.children| {
      AgreesWhereUnaffected(c.children[i]);
      ChildrenAgree(c, i + 1);
    }
  }

  /** A choice, an `all` list or a several-child group at the top is written differently by the two. */
  lemma AffectedDiffers(c: ContentModel)
    requires c.Node? && Renderable(c) && FixedRenderable(c)
    requires c.modelType in {ChoiceModel, AllModel} || (c.modelType == GroupModel && |c.children| != 1)
    ensures String(c) == "EMPTY" + c.multiplicity.Suffix()
    ensures |FixedString(c)| > 0 && FixedString(c)[0] == '(' && String(c) != FixedString(c)
  {
    var inner := Join(FixedChildStrings(c, 0), GetSep(c.modelType));
    assert FixedString(c) == "(" + inner + ")" + c.multiplicity.Suffix();
    assert BaseString(c) == "EMPTY";
    assert String(c)[0] == 'E';
  }

  // ---------------------------------------------------------------- balance

  /** How many times `ch` occurs in `s`. */
  function Occurrences(s: string, ch: char): nat {
    if |s| == 0 then 0 else (if s[0] == ch then 1 else 0) + Occurrences(s[1..], ch)
  }

  lemma {:induction false} OccurrencesAppend(a: string, b: string, ch: char)
    ensures Occurrences(a + b, ch) == Occurrences(a, ch) + Occurrences(b, ch)
    decreases |a|
  {
    if |a| > 0 {
      assert (a + b)[0] == a[0] && (a + b)[1..] == a[1..] + b;
      OccurrencesAppend(a[1..], b, ch);
    } else {
      assert a + b == b;
    }
  }

  /** As many closing as opening parentheses. */
  predicate Even(s: string) {
    Occurrences(s, '(') == Occurrences(s, ')')
  }

  lemma EvenAppend(a: string, b: string)
    requires Even(a) && Even(b)
    ensures Even(a + b)
  {
    OccurrencesAppend(a, b, '(');
    OccurrencesAppend(a, b, ')');
  }

  lemma {:induction false} JoinEven(parts: seq<string>, sep: string)
    requires Even(sep) && forall k :: 0 <= k < |parts| ==> Even(parts[k])
    ensures Even(Join(parts, sep))
    decreases |parts|
  {
    if |parts| > 1 {
      JoinEven(parts[1..], sep);
      EvenAppend(parts[0], sep);
      EvenAppend(parts[0] + sep, Join(parts[1..], sep));
    } else if |parts| == 0 {
      assert Occurrences("", '(') == 0 && Occurrences("", ')') == 0;
    }
  }

  /** Element names in the tree contain no parentheses. */
  predicate PlainNames(c: ContentModel)
    decreases c
  {
    c.Nil? ||
    ((c.element.Some? ==> '(' !in c.element.value.name && ')' !in c.element.value.name)
     && forall i :: 0 <= i < |c.children| ==> PlainNames(c.children[i]))
  }

  lemma {:induction false} PlainEven(s: string)
    requires '(' !in s && ')' !in s
    ensures Occurrences(s, '(') == 0 && Occurrences(s, ')') == 0
    decreases |s|
  {
    if |s| > 0 {
      assert s == [s[0]] + s[1..];
      PlainEven(s[1..]);
    }
  }

  /** Given element names without parentheses, the corrected rendering has balanced parenthesis counts. */
  lemma {:induction false} FixedBalanced(c: ContentModel)
    requires FixedRenderable(c) && PlainNames(c)
    ensures Even(FixedString(c))
    decreases c, 3
  {
    if c.Nil? {
      PlainEven("EMPTY");
    } else {
      FixedBaseBalanced(c);
      PlainEven(c.multiplicity.Suffix());
      EvenAppend(FixedBaseString(c), c.multiplicity.Suffix());
    }
  }

  lemma {:induction false} FixedBaseBalanced(c: ContentModel)
    requires c.Node? && FixedRenderable(c) && PlainNames(c)
    ensures Even(FixedBaseString(c))
    decreases c, 2
  {
    match c.modelType {
      case PCDataModel =>
        assert Occurrences("(#PCDATA)", '(') == 1 && Occurrences("(#PCDATA)", ')') == 1;
      case ElementModel =>
        PlainEven(c.element.value.name);
      case UnknownModel =>
        PlainEven("EMPTY");
      case GroupModel =>
        if |c.children| == 1 {
          FixedBalanced(c.children[0]);
          WrapEven(FixedString(c.children[0]));
        } else {
          ListBalanced(c);
        }
      case SequenceModel | ChoiceModel | AllModel =>
        ListBalanced(c);
    }
  }

  lemma {:induction false} ListBalanced(c: ContentModel)
    requires c.Node? && FixedRenderable(c) && PlainNames(c) && c.modelType !in {UnknownModel, PCDataModel, ElementModel}
    ensures Even("(" + Join(FixedChildStrings(c, 0), GetSep(c.modelType)) + ")")
    decreases c, 1
  {
    var parts, sep := FixedChildStrings(c, 0), GetSep(c.modelType);
    ChildrenBalanced(c, 0);
    PlainEven(sep);
    JoinEven(parts, sep);
    WrapEven(Join(parts, sep));
  }

  /** Parenthesising keeps the counts equal. */
  lemma WrapEven(inner: string)
    requires Even(inner)
    ensures Even("(" + inner + ")")
  {
    assert Occurrences("(", '(') == 1 && Occurrences("(", ')') == 0;
    assert Occurrences(")", '(') == 0 && Occurrences(")", ')') == 1;
    OccurrencesAppend("(", inner, '(');
    OccurrencesAppend("(", inner, ')');
    OccurrencesAppend("(" + inner, ")", '(');
    OccurrencesAppend("(" + inner, ")", ')');
  }

  lemma {:induction false} ChildrenBalanced(c: ContentModel, i: nat)
    requires c.Node? && FixedRenderable(c) && PlainNames(c) && c.modelType !in {UnknownModel, PCDataModel, ElementModel}
    requires i <= |c.children|
    ensures forall k :: 0 <= k < |c.children| - i ==> Even(FixedChildStrings(c, i)[k])
    decreases c, 0, |c.children| - i
  {
    if i < |c.children| {
      FixedBalanced(c.children[i]);
      ChildrenBalanced(c, i + 1);
      assert FixedChildStrings(c, i) == [FixedString(c.children[i])] + FixedChildStrings(c, i + 1);
    }
  }
}
