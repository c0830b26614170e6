/**
  What the event-driven HTML parser is for (cloud_api/_push_notification.py): documents, the
  events they are printed as, and the element trees they stand for. The parser itself is
  specified in HtmlParsing and implemented in HtmlParser.
*/
module HtmlDocument {
  import opened Wrappers

  type Attributes = map<string, Option<string>>

  datatype Event =
    | Start(tag: string, attrs: seq<(string, Option<string>)>)
    | End(tag: string)
    | StartEnd(tag: string, attrs: seq<(string, Option<string>)>)
    | Data(data: string)

  datatype Element = Element(tag: string, attrs: Attributes, text: string, tail: string, children: seq<Element>)

  predicate IsVoid(tag: string) {
    tag in {"area", "base", "br", "col", "command", "embed", "hr", "img", "input",
            "keygen", "link", "meta", "param", "source", "track", "wbr"}
  }

  predicate IsFormat(tag: string) {
    tag in {"b", "em", "i", "small", "strong", "sub", "sup", "ins", "del", "mark"}
  }

  // dict(attrs): the last of several attributes with one name wins.
  function Dict(attrs: seq<(string, Option<string>)>): Attributes {
    if attrs == [] then map[] else Dict(attrs[..|attrs| - 1])[attrs[|attrs| - 1].0 := attrs[|attrs| - 1].1]
  }

  /** The attributes are those given, and of several with one name the last. */
  ghost predicate HoldsAttributes(m: Attributes, attrs: seq<(string, Option<string>)>) {
    HoldsLastOfNames(m, attrs) && HoldsOnlyNames(m, attrs)
  }

  ghost predicate HoldsLastOfNames(m: Attributes, attrs: seq<(string, Option<string>)>) {
    forall i | 0 <= i < |attrs| && IsLastOfName(attrs, i) :: attrs[i].0 in m && m[attrs[i].0] == attrs[i].1
  }

  ghost predicate HoldsOnlyNames(m: Attributes, attrs: seq<(string, Option<string>)>) {
    forall name <- m :: HasName(attrs, name)
  }

  ghost predicate HasName(attrs: seq<(string, Option<string>)>, name: string) {
    exists i :: 0 <= i < |attrs| && attrs[i].0 == name
  }

  ghost predicate IsLastOfName(attrs: seq<(string, Option<string>)>, i: nat) {
    i < |attrs| && forall j :: i < j < |attrs| ==> attrs[j].0 != attrs[i].0
  }

  lemma {:induction false} LastOfNamesGrow(m: Attributes, before: seq<(string, Option<string>)>, next: (string, Option<string>))
    requires HoldsLastOfNames(m, before)
    ensures HoldsLastOfNames(m[next.0 := next.1], before + [next])
  {
    var attrs := before + [next];
    forall i | 0 <= i < |attrs| && IsLastOfName(attrs, i)
      ensures attrs[i].0 in m[next.0 := next.1] && m[next.0 := next.1][attrs[i].0] == attrs[i].1
    {
      if i < |before| {
        assert attrs[|before|] == next;
        assert forall j :: i < j < |before| ==> before[j] == attrs[j];
        assert IsLastOfName(before, i) && before[i] == attrs[i];
      }
    }
  }

  lemma {:induction false} OnlyNamesGrow(m: Attributes, before: seq<(string, Option<string>)>, next: (string, Option<string>))
    requires HoldsOnlyNames(m, before)
    ensures HoldsOnlyNames(m[next.0 := next.1], before + [next])
  {
    var attrs := before + [next];
    assert attrs[|before|] == next;
    forall name | name in m ensures HasName(attrs, name) {
      assert HasName(before, name);
      var i :| 0 <= i < |before| && before[i].0 == name;
      assert attrs[i] == before[i];
    }
  }

  lemma {:induction false} DictHoldsAttributes(attrs: seq<(string, Option<string>)>)
    ensures HoldsAttributes(Dict(attrs), attrs)
    decreases |attrs|
  {
    if attrs != [] {
      var before, next := attrs[..|attrs| - 1], attrs[|attrs| - 1];
      assert attrs == before + [next];
      DictHoldsAttributes(before);
      LastOfNamesGrow(Dict(before), before, next);
      OnlyNamesGrow(Dict(before), before, next);
    }
  }

  function NewElement(tag: string, attrs: seq<(string, Option<string>)>): Element {
    Element(tag, Dict(attrs), "", "", [])
  }

  /**
    The contents of an element, in document order: character data, transparent formatting
    tags, elements without contents, and elements with contents.
  */
  datatype Doc =
    | Nil
    | Text(data: string, rest: Doc)
    | Format(event: Event, rest: Doc)
    | Leaf(event: Event, rest: Doc)
    | Node(tag: string, attrs: seq<(string, Option<string>)>, inner: Doc, rest: Doc)

  predicate IsFormatEvent(e: Event) {
    (e.Start? || e.End?) && IsFormat(e.tag)
  }

  predicate IsLeafEvent(e: Event) {
    e.StartEnd? || (e.Start? && IsVoid(e.tag) && !IsFormat(e.tag))
  }

  /**
    At the top level there is no parent to hold an element without contents, and a void tag
    opens a root like any other.
  */
  predicate WellFormed(d: Doc, top: bool) {
    match d
    case Nil => true
    case Text(_, rest) => WellFormed(rest, top)
    case Format(e, rest) => IsFormatEvent(e) && WellFormed(rest, top)
    case Leaf(e, rest) => !top && IsLeafEvent(e) && WellFormed(rest, top)
    case Node(tag, _, inner, rest) =>
      !IsFormat(tag) && (top || !IsVoid(tag)) && WellFormed(inner, false) && WellFormed(rest, top)
  }

  function Print(d: Doc): seq<Event> {
    match d
    case Nil => []
    case Text(data, rest) => [Data(data)] + Print(rest)
    case Format(e, rest) => [e] + Print(rest)
    case Leaf(e, rest) => [e] + Print(rest)
    case Node(tag, attrs, inner, rest) => [Start(tag, attrs)] + Print(inner) + [End(tag)] + Print(rest)
  }

  /** The character data directly inside an element, in document order. */
  function DirectData(d: Doc): string {
    match d
    case Nil => ""
    case Text(data, rest) => data + DirectData(rest)
    case _ => DirectData(d.rest)
  }

  /** The part of it that stands before the first child with contents. */
  function TextOf(d: Doc): string {
    match d
    case Nil => ""
    case Node(_, _, _, _) => ""
    case Text(data, rest) => data + TextOf(rest)
    case _ => TextOf(d.rest)
  }

  /** The part of it that stands after the first child with contents. */
  function TailOf(d: Doc): string {
    match d
    case Nil => ""
    case Node(_, _, _, rest) => DirectData(rest)
    case _ => TailOf(d.rest)
  }

  predicate HasNode(d: Doc) {
    match d
    case Nil => false
    case Node(_, _, _, _) => true
    case _ => HasNode(d.rest)
  }

  /** The child elements that the contents d stand for. */
  function Children(d: Doc): seq<Element> {
    match d
    case Nil => []
    case Leaf(e, rest) =>
      (if e.Start? || e.StartEnd? then [NewElement(e.tag, e.attrs)] else []) + Children(rest)
    case Node(tag, attrs, inner, rest) =>
      [Element(tag, Dict(attrs), TextOf(inner), TailOf(inner), Children(inner))] + Children(rest)
    case _ => Children(d.rest)
  }

  /** The root is special: all of its own data goes to its tail. */
  function Root(tag: string, attrs: seq<(string, Option<string>)>, inner: Doc): Element {
    Element(tag, Dict(attrs), "", DirectData(inner), Children(inner))
  }

  /** The root that a whole document leaves: its last top-level element, if any. */
  function LastRoot(d: Doc, before: Option<Element>): Option<Element> {
    match d
    case Nil => before
    case Node(tag, attrs, inner, rest) => LastRoot(rest, Some(Root(tag, attrs, inner)))
    case _ => LastRoot(d.rest, before)
  }

  /** Text followed by tail is an element's own character data, in document order. */
  lemma {:induction false} TextAndTailAreDirectData(d: Doc)
    ensures TextOf(d) + TailOf(d) == DirectData(d)
    decreases d
  {
    match d
    case Nil =>
    case Node(_, _, _, _) =>
    case Text(data, rest) =>
      TextAndTailAreDirectData(rest);
      assert data + TextOf(rest) + TailOf(rest) == data + (TextOf(rest) + TailOf(rest));
    case _ => TextAndTailAreDirectData(d.rest);
  }

  // ---------- Appending to a document ----------

  function Append(d: Doc, e: Doc): Doc {
    match d
    case Nil => e
    case Text(data, rest) => Text(data, Append(rest, e))
    case Format(f, rest) => Format(f, Append(rest, e))
    case Leaf(f, rest) => Leaf(f, Append(rest, e))
    case Node(tag, attrs, inner, rest) => Node(tag, attrs, inner, Append(rest, e))
  }

  lemma EventsInOrder(a: seq<Event>, b: seq<Event>, c: seq<Event>)
    ensures a + (b + c) == a + b + c
  {
  }

  lemma {:induction false} AppendIsConcatenation(d: Doc, e: Doc)
    ensures Print(Append(d, e)) == Print(d) + Print(e)
    decreases d
  {
    match d
    case Nil =>
    case Node(tag, attrs, inner, rest) =>
      AppendIsConcatenation(rest, e);
      EventsInOrder([Start(tag, attrs)] + Print(inner) + [End(tag)], Print(rest), Print(e));
    case Text(data, rest) =>
      AppendIsConcatenation(rest, e);
      EventsInOrder([Data(data)], Print(rest), Print(e));
    case Format(event, rest) =>
      AppendIsConcatenation(rest, e);
      EventsInOrder([event], Print(rest), Print(e));
    case Leaf(event, rest) =>
      AppendIsConcatenation(rest, e);
      EventsInOrder([event], Print(rest), Print(e));
  }

  lemma {:induction false} AppendIsWellFormed(d: Doc, e: Doc, top: bool)
    requires WellFormed(d, top) && WellFormed(e, top)
    ensures WellFormed(Append(d, e), top)
    decreases d
  {
    if d != Nil {
      AppendIsWellFormed(d.rest, e, top);
    }
  }

  /** The data up to the first child with contents is the text, and all after it is the tail. */
  lemma {:induction false} TextEndsAtFirstChild(d: Doc, tag: string, attrs: seq<(string, Option<string>)>, inner: Doc, rest: Doc)
    requires !HasNode(d)
    ensures TextOf(d) == DirectData(d) && TailOf(d) == ""
    ensures var cut := Append(d, Node(tag, attrs, inner, rest));
            TextOf(cut) == DirectData(d) && TailOf(cut) == DirectData(rest)
    decreases d
  {
    if d != Nil {
      TextEndsAtFirstChild(d.rest, tag, attrs, inner, rest);
    }
  }

  /** Data and children come in document order. */
  lemma {:induction false} DataIsInOrder(d: Doc, e: Doc)
    ensures DirectData(Append(d, e)) == DirectData(d) + DirectData(e)
    decreases d
  {
    if d.Text? {
      DataIsInOrder(d.rest, e);
      assert d.data + (DirectData(d.rest) + DirectData(e)) == d.data + DirectData(d.rest) + DirectData(e);
    } else if d != Nil {
      DataIsInOrder(d.rest, e);
    }
  }

  lemma {:induction false} ChildrenAreInOrder(d: Doc, e: Doc)
    ensures Children(Append(d, e)) == Children(d) + Children(e)
    decreases d
  {
    match d
    case Nil =>
    case Text(_, rest) => ChildrenAreInOrder(rest, e);
    case Format(_, rest) => ChildrenAreInOrder(rest, e);
    case Leaf(f, rest) =>
      ChildrenAreInOrder(rest, e);
      InOrder(if f.Start? || f.StartEnd? then [NewElement(f.tag, f.attrs)] else [], Children(rest), Children(e));
    case Node(tag, attrs, inner, rest) =>
      ChildrenAreInOrder(rest, e);
      InOrder([Element(tag, Dict(attrs), TextOf(inner), TailOf(inner), Children(inner))], Children(rest), Children(e));
  }

  lemma InOrder(a: seq<Element>, b: seq<Element>, c: seq<Element>)
    ensures a + (b + c) == a + b + c
  {
  }
}
