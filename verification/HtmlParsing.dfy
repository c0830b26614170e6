/**
  The parser as a machine on values: _CloudHTMLParser with each open element standing apart
  from its parent until it is closed. Proved to accept exactly the printed documents of
  HtmlDocument and to rebuild their element trees.
*/
module HtmlParsing {
  import opened Wrappers
  import opened HtmlDocument

  datatype Failure = NoFailure | ClosingTagsMismatch | PopFromEmptyStack | NoParent

  /** root is the last root that was closed; elementOpened is _element_opened. */
  datatype State = State(stack: seq<Element>, elementOpened: bool, root: Option<Element>, failure: Failure)

  const INIT := State([], false, None, NoFailure)

  function Top(st: State): Element
    requires st.stack != []
  {
    st.stack[|st.stack| - 1]
  }

  function WithTop(st: State, e: Element): State
    requires st.stack != []
  {
    st.(stack := st.stack[..|st.stack| - 1] + [e])
  }

  function Adopt(parent: Element, child: Element): Element {
    parent.(children := parent.children + [child])
  }

  /** One event; after a failure, which is an exception out of feed(), nothing happens any more. */
  function Step(st: State, e: Event): State
  {
    if st.failure != NoFailure then st
    else
      match e
      case Data(data) => if st.stack == [] then st else WithTop(st, AddData(Top(st), st.elementOpened, data))
      case StartEnd(tag, attrs) =>
        if st.stack == [] then st.(failure := NoParent) else WithTop(st, Adopt(Top(st), NewElement(tag, attrs)))
      case Start(tag, attrs) => if IsFormat(tag) then st else StartStep(st, tag, attrs)
      case End(tag) => if IsFormat(tag) then st else EndStep(st, tag)
  }

  function AddData(e: Element, elementOpened: bool, data: string): Element {
    if elementOpened then e.(text := e.text + data) else e.(tail := e.tail + data)
  }

  function StartStep(st: State, tag: string, attrs: seq<(string, Option<string>)>): State
  {
    var e := NewElement(tag, attrs);
    if st.stack == [] then st.(stack := [e])
    else if IsVoid(tag) then WithTop(st, Adopt(Top(st), e))
    else st.(stack := st.stack + [e], elementOpened := true)
  }

  function EndStep(st: State, tag: string): State
  {
    if st.stack == [] then st.(failure := PopFromEmptyStack)
    else if Top(st).tag != tag then Pop(st).(failure := ClosingTagsMismatch)
    else Pop(st).(elementOpened := false)
  }

  function Pop(st: State): State
    requires st.stack != []
  {
    var n := |st.stack|;
    if n == 1 then st.(stack := [], root := Some(Top(st)))
    else st.(stack := st.stack[..n - 2] + [Adopt(st.stack[n - 2], Top(st))])
  }

  function Run(st: State, es: seq<Event>): State
    decreases |es|
  {
    if es == [] then st else Run(Step(st, es[0]), es[1..])
  }

  lemma {:induction false} RunConcat(st: State, es: seq<Event>, fs: seq<Event>)
    ensures Run(st, es + fs) == Run(Run(st, es), fs)
    decreases |es|
  {
    if es == [] {
      assert es + fs == fs;
    } else {
      assert (es + fs)[1..] == es[1..] + fs;
      RunConcat(Step(st, es[0]), es[1..], fs);
    }
  }

  lemma {:induction false} FailureStays(st: State, es: seq<Event>)
    requires st.failure != NoFailure
    ensures Run(st, es) == st
    decreases |es|
  {
    if es != [] {
      FailureStays(st, es[1..]);
    }
  }

  // ---------- Completeness: printed documents are parsed back ----------

  /** The element e after the contents d were fed to it. */
  function Absorb(e: Element, elementOpened: bool, d: Doc): Element {
    e.(text := e.text + (if elementOpened then TextOf(d) else ""),
       tail := e.tail + (if elementOpened then TailOf(d) else DirectData(d)),
       children := e.children + Children(d))
  }

  /** What the top of the stack looks like once the contents d were fed to it. */
  function Fed(st: State, d: Doc): State
    requires st.stack != []
  {
    WithTop(st, Absorb(Top(st), st.elementOpened, d)).(elementOpened := st.elementOpened && !HasNode(d))
  }

  lemma {:induction false} RunStep(st: State, e: Event, es: seq<Event>)
    ensures Run(st, [e] + es) == Run(Step(st, e), es)
  {
    assert ([e] + es)[1..] == es;
  }

  lemma {:induction false} ContentsAreAbsorbed(st: State, d: Doc)
    requires st.failure == NoFailure && st.stack != [] && WellFormed(d, false)
    ensures Run(st, Print(d)) == Fed(st, d)
    decreases d
  {
    match d
    case Nil =>
      assert Absorb(Top(st), st.elementOpened, d) == Top(st);
      assert st.stack == st.stack[..|st.stack| - 1] + [Top(st)];
    case Text(data, rest) =>
      RunStep(st, Data(data), Print(rest));
      ContentsAreAbsorbed(Step(st, Data(data)), rest);
      FedText(st, data, rest);
    case Format(e, rest) =>
      RunStep(st, e, Print(rest));
      ContentsAreAbsorbed(st, rest);
    case Leaf(e, rest) =>
      RunStep(st, e, Print(rest));
      LeafIsAdopted(st, e);
      ContentsAreAbsorbed(Step(st, e), rest);
      FedLeaf(st, e, rest);
    case Node(tag, attrs, inner, rest) =>
      OpensChild(st, tag, attrs);
      ContentsAreAbsorbed(Step(st, Start(tag, attrs)), inner);
      ContentsAreAbsorbed(Adopted(st, ChildOf(tag, attrs, inner)), rest);
      NodeIsAbsorbed(st, tag, attrs, inner, rest);
  }

  function ChildOf(tag: string, attrs: seq<(string, Option<string>)>, inner: Doc): Element {
    Element(tag, Dict(attrs), TextOf(inner), TailOf(inner), Children(inner))
  }

  lemma OpensChild(st: State, tag: string, attrs: seq<(string, Option<string>)>)
    requires st.failure == NoFailure && st.stack != [] && !IsFormat(tag) && !IsVoid(tag)
    ensures Step(st, Start(tag, attrs)) == st.(stack := st.stack + [NewElement(tag, attrs)], elementOpened := true)
  {
  }

  lemma {:induction false} NodeIsAbsorbed(st: State, tag: string, attrs: seq<(string, Option<string>)>, inner: Doc, rest: Doc)
    requires st.failure == NoFailure && st.stack != [] && !IsFormat(tag) && !IsVoid(tag)
    requires Run(Step(st, Start(tag, attrs)), Print(inner)) == Fed(Step(st, Start(tag, attrs)), inner)
    requires Run(Adopted(st, ChildOf(tag, attrs, inner)), Print(rest)) == Fed(Adopted(st, ChildOf(tag, attrs, inner)), rest)
    ensures Run(st, Print(Node(tag, attrs, inner, rest))) == Fed(st, Node(tag, attrs, inner, rest))
  {
    ChildIsAdopted(st, tag, attrs, inner);
    NodeRun(st, tag, attrs, inner, rest);
    FedNode(st, tag, attrs, inner, rest);
  }

  lemma FedText(st: State, data: string, rest: Doc)
    requires st.failure == NoFailure && st.stack != []
    ensures Fed(Step(st, Data(data)), rest) == Fed(st, Text(data, rest))
  {
    var e := Top(st);
    assert e.text + data + TextOf(rest) == e.text + (data + TextOf(rest));
    assert e.tail + data + DirectData(rest) == e.tail + (data + DirectData(rest));
  }

  lemma LeafIsAdopted(st: State, e: Event)
    requires st.failure == NoFailure && st.stack != [] && IsLeafEvent(e)
    ensures Step(st, e) == WithTop(st, Adopt(Top(st), NewElement(e.tag, e.attrs)))
  {
  }

  lemma FedLeaf(st: State, e: Event, rest: Doc)
    requires st.failure == NoFailure && st.stack != [] && (e.Start? || e.StartEnd?)
    ensures Fed(WithTop(st, Adopt(Top(st), NewElement(e.tag, e.attrs))), rest) == Fed(st, Leaf(e, rest))
  {
    var c := NewElement(e.tag, e.attrs);
    assert Top(st).children + [c] + Children(rest) == Top(st).children + ([c] + Children(rest));
  }

  /** A child with contents was closed: data goes to the tail of its parent from now on. */
  function Adopted(st: State, child: Element): State
    requires st.stack != []
  {
    WithTop(st, Adopt(Top(st), child)).(elementOpened := false)
  }

  lemma {:induction false} ChildIsAdopted(st: State, tag: string, attrs: seq<(string, Option<string>)>, inner: Doc)
    requires st.failure == NoFailure && st.stack != [] && !IsFormat(tag) && !IsVoid(tag)
    ensures Step(Fed(Step(st, Start(tag, attrs)), inner), End(tag))
         == Adopted(st, ChildOf(tag, attrs, inner))
  {
    var st1 := Step(st, Start(tag, attrs));
    var child := Absorb(Top(st1), true, inner);
    assert child == ChildOf(tag, attrs, inner);
    assert Fed(st1, inner).stack == st.stack + [child];
    assert Pop(Fed(st1, inner)).stack == st.stack[..|st.stack| - 1] + [Adopt(Top(st), child)];
  }

  lemma {:induction false} FedNode(st: State, tag: string, attrs: seq<(string, Option<string>)>, inner: Doc, rest: Doc)
    requires st.stack != []
    ensures Fed(Adopted(st, ChildOf(tag, attrs, inner)), rest) == Fed(st, Node(tag, attrs, inner, rest))
  {
    var e, child := Top(st), ChildOf(tag, attrs, inner);
    assert Top(Adopted(st, child)) == Adopt(e, child);
    assert e.children + [child] + Children(rest) == e.children + ([child] + Children(rest));
    assert e.text + "" == e.text;
  }

  lemma {:induction false} NodeRun(st: State, tag: string, attrs: seq<(string, Option<string>)>, inner: Doc, rest: Doc)
    ensures Run(st, Print(Node(tag, attrs, inner, rest)))
         == Run(Step(Run(Step(st, Start(tag, attrs)), Print(inner)), End(tag)), Print(rest))
  {
    var a, b, c, d := [Start(tag, attrs)], Print(inner), [End(tag)], Print(rest);
    RunConcat(st, a + b + c, d);
    RunConcat(st, a + b, c);
    RunConcat(st, a, b);
  }

  lemma {:induction false} TopLevelIsRebuilt(st: State, d: Doc)
    requires st.failure == NoFailure && st.stack == [] && !st.elementOpened && WellFormed(d, true)
    ensures Run(st, Print(d)) == st.(root := LastRoot(d, st.root))
    decreases d
  {
    match d
    case Nil =>
    case Node(tag, attrs, inner, rest) =>
      var st1 := Step(st, Start(tag, attrs));
      ContentsAreAbsorbed(st1, inner);
      assert Absorb(Top(st1), false, inner) == Root(tag, attrs, inner);
      NodeRun(st, tag, attrs, inner, rest);
      TopLevelIsRebuilt(st.(root := Some(Root(tag, attrs, inner))), rest);
    case Text(data, rest) =>
      RunStep(st, Data(data), Print(rest));
      TopLevelIsRebuilt(st, rest);
    case Format(e, rest) =>
      RunStep(st, e, Print(rest));
      TopLevelIsRebuilt(st, rest);
    case Leaf(_, _) =>
  }

  // ---------- Soundness: whatever is accepted was printed ----------

  /** A document cut off anywhere: an open element inside what was read before it, or no open element. */
  datatype Partial =
    | Outside(doc: Doc)
    | Inside(outer: Partial, tag: string, attrs: seq<(string, Option<string>)>, doc: Doc)

  predicate WellFormedPartial(p: Partial) {
    match p
    case Outside(doc) => WellFormed(doc, true)
    case Inside(outer, tag, _, doc) =>
      WellFormedPartial(outer) && !IsFormat(tag) && (outer.Inside? ==> !IsVoid(tag)) && WellFormed(doc, false)
  }

  function PrintPartial(p: Partial): seq<Event> {
    match p
    case Outside(doc) => Print(doc)
    case Inside(outer, tag, attrs, doc) => PrintPartial(outer) + [Start(tag, attrs)] + Print(doc)
  }

  /**
    The parser's state as a function of the document read so far: its stack is the chain of
    open elements, each with exactly its own data and its closed children.
  */
  function StateOf(p: Partial): State {
    match p
    case Outside(doc) => State([], false, LastRoot(doc, None), NoFailure)
    case Inside(outer, tag, attrs, doc) =>
      State(StateOf(outer).stack + [Absorb(NewElement(tag, attrs), outer.Inside?, doc)],
            outer.Inside? && !HasNode(doc), StateOf(outer).root, NoFailure)
  }

  lemma {:induction false} PartialIsParsed(p: Partial)
    requires WellFormedPartial(p)
    ensures Run(INIT, PrintPartial(p)) == StateOf(p)
    ensures StateOf(p).stack == [] <==> p.Outside?
    decreases p
  {
    match p
    case Outside(doc) => TopLevelIsRebuilt(INIT, doc);
    case Inside(outer, tag, attrs, doc) =>
      PartialIsParsed(outer);
      var st := Step(StateOf(outer), Start(tag, attrs));
      assert st.stack == StateOf(outer).stack + [NewElement(tag, attrs)];
      ContentsAreAbsorbed(st, doc);
      RunConcat(INIT, PrintPartial(outer) + [Start(tag, attrs)], Print(doc));
      RunConcat(INIT, PrintPartial(outer), [Start(tag, attrs)]);
      assert Fed(st, doc).stack == StateOf(p).stack;
  }

  /** One more closed piece at the place where the document was cut off. */
  function Extend(p: Partial, item: Doc): Partial {
    p.(doc := Append(p.doc, item))
  }

  lemma {:induction false} ExtendIsAppend(p: Partial, item: Doc)
    requires WellFormedPartial(p) && WellFormed(item, p.Outside?)
    ensures WellFormedPartial(Extend(p, item))
    ensures PrintPartial(Extend(p, item)) == PrintPartial(p) + Print(item)
  {
    AppendIsConcatenation(p.doc, item);
    AppendIsWellFormed(p.doc, item, p.Outside?);
  }

  // A closing tag is accepted only if it closes the innermost open element.
  lemma {:induction false} EndMatches(p: Partial, tag: string)
    requires EndStep(StateOf(p), tag).failure == NoFailure
    ensures p.Inside? && p.tag == tag
  {
    if p.Inside? {
      assert Top(StateOf(p)).tag == p.tag;
    }
  }

  lemma {:induction false} NodeIsPrinted(tag: string, attrs: seq<(string, Option<string>)>, inner: Doc)
    ensures Print(Node(tag, attrs, inner, Nil)) == [Start(tag, attrs)] + Print(inner) + [End(tag)]
  {
    assert Print(Nil) == [];
  }

  lemma {:induction false} EndExtends(p: Partial) returns (q: Partial)
    requires WellFormedPartial(p) && p.Inside?
    ensures WellFormedPartial(q) && PrintPartial(q) == PrintPartial(p) + [End(p.tag)]
  {
    var node := Node(p.tag, p.attrs, p.doc, Nil);
    NodeIsPrinted(p.tag, p.attrs, p.doc);
    ExtendIsAppend(p.outer, node);
    q := Extend(p.outer, node);
    assert PrintPartial(p.outer) + ([Start(p.tag, p.attrs)] + Print(p.doc) + [End(p.tag)])
        == PrintPartial(p.outer) + [Start(p.tag, p.attrs)] + Print(p.doc) + [End(p.tag)];
  }

  // The piece that an event is by itself: character data, a format tag, or an element without contents.
  function Item(e: Event): Doc {
    if e.Data? then Text(e.data, Nil) else if IsFormatEvent(e) then Format(e, Nil) else Leaf(e, Nil)
  }

  lemma {:induction false} ItemIsEvent(e: Event, top: bool)
    requires e.Data? || IsFormatEvent(e) || (!top && IsLeafEvent(e))
    ensures WellFormed(Item(e), top) && Print(Item(e)) == [e]
  {
    assert Print(Nil) == [];
  }

  lemma {:induction false} ItemIsLeaf(p: Partial, e: Event)
    requires Step(StateOf(p), e).failure == NoFailure && StateOf(p).failure == NoFailure
    requires StateOf(p).stack == [] <==> p.Outside?
    requires e.StartEnd? || (e.Start? && !IsFormat(e.tag) && IsVoid(e.tag) && p.Inside?)
    ensures p.Inside? && IsLeafEvent(e)
  {
  }

  /** What one event makes of the document read so far, unless it makes the parser fail. */
  lemma EventExtends(p: Partial, e: Event) returns (q: Partial)
    requires WellFormedPartial(p) && StateOf(p).failure == NoFailure && Step(StateOf(p), e).failure == NoFailure
    requires StateOf(p).stack == [] <==> p.Outside?
    ensures WellFormedPartial(q) && PrintPartial(q) == PrintPartial(p) + [e]
  {
    if e.End? && !IsFormat(e.tag) {
      EndMatches(p, e.tag);
      q := EndExtends(p);
    } else if e.Start? && !IsFormat(e.tag) && (p.Outside? || !IsVoid(e.tag)) {
      q := Inside(p, e.tag, e.attrs, Nil);
    } else {
      if !e.Data? && !IsFormatEvent(e) {
        ItemIsLeaf(p, e);
      }
      ItemIsEvent(e, p.Outside?);
      ExtendIsAppend(p, Item(e));
      q := Extend(p, Item(e));
    }
  }

  lemma {:induction false} PrefixIsPartialDocument(es: seq<Event>) returns (p: Partial)
    requires Run(INIT, es).failure == NoFailure
    ensures WellFormedPartial(p) && PrintPartial(p) == es && Run(INIT, es) == StateOf(p)
    decreases |es|
  {
    if es == [] {
      p := Outside(Nil);
    } else {
      var n := |es| - 1;
      assert es == es[..n] + [es[n]];
      RunConcat(INIT, es[..n], [es[n]]);
      var q := PrefixIsPartialDocument(es[..n]);
      PartialIsParsed(q);
      p := EventExtends(q, es[n]);
    }
    PartialIsParsed(p);
  }

  // ---------- The theorems ----------

  /** A run that ends without an error and with an empty stack. */
  predicate Accepts(es: seq<Event>) {
    Run(INIT, es).failure == NoFailure && Run(INIT, es).stack == []
  }

  predicate IsDocument(d: Doc, es: seq<Event>) {
    WellFormed(d, true) && Print(d) == es
  }

  lemma {:induction false} AcceptedIsDocument(es: seq<Event>) returns (d: Doc)
    requires Accepts(es)
    ensures IsDocument(d, es)
  {
    var p := PrefixIsPartialDocument(es);
    PartialIsParsed(p);
    d := p.doc;
  }

  /** Exactly the printed documents are accepted. */
  lemma {:induction false} AcceptsExactlyDocuments(es: seq<Event>)
    ensures Accepts(es) <==> exists d :: IsDocument(d, es)
  {
    if Accepts(es) {
      var d := AcceptedIsDocument(es);
    }
    forall d | IsDocument(d, es) ensures Accepts(es) {
      TopLevelIsRebuilt(INIT, d);
    }
  }

  /** Parsing the events of a document rebuilds the tree it stands for, with the attributes it was given. */
  lemma {:induction false} RoundTrip(tag: string, attrs: seq<(string, Option<string>)>, inner: Doc)
    requires !IsFormat(tag) && WellFormed(inner, false)
    ensures var es := Print(Node(tag, attrs, inner, Nil));
            && Accepts(es) && Run(INIT, es).root == Some(Root(tag, attrs, inner))
            && HoldsAttributes(Root(tag, attrs, inner).attrs, attrs)
  {
    TopLevelIsRebuilt(INIT, Node(tag, attrs, inner, Nil));
    DictHoldsAttributes(attrs);
  }

  // ---------- Single events ----------

  // The void elements of HTML, and its formatting elements, by name.
  const VOID_ELEMENTS := ["area", "base", "br", "col", "command", "embed", "hr", "img",
                          "input", "keygen", "link", "meta", "param", "source", "track", "wbr"]
  const FORMATTING_ELEMENTS := ["b", "em", "i", "small", "strong", "sub", "sup", "ins", "del", "mark"]

  lemma TagsByName(tag: string)
    ensures IsVoid(tag) <==> tag in VOID_ELEMENTS
    ensures IsFormat(tag) <==> tag in FORMATTING_ELEMENTS
  {
  }

  /** Inside an element a start tag is ignored, or adds a child that is or is not left open; exactly by its name. */
  lemma {:induction false} StartTagIsTold(st: State, tag: string, attrs: seq<(string, Option<string>)>)
    requires st.failure == NoFailure && st.stack != []
    ensures var child := Element(tag, Dict(attrs), "", "", []);
            HoldsAttributes(child.attrs, attrs) &&
            Step(st, Start(tag, attrs))
            == if tag in FORMATTING_ELEMENTS then st
               else if tag in VOID_ELEMENTS then WithTop(st, Adopt(Top(st), child))
               else st.(stack := st.stack + [child], elementOpened := true)
  {
    TagsByName(tag);
    DictHoldsAttributes(attrs);
  }

  /** An end tag closes the innermost element, even one of another name, and then fails. */
  lemma EndTagIsTold(st: State, tag: string)
    requires st.failure == NoFailure && st.stack != [] && tag !in FORMATTING_ELEMENTS
    ensures var n := |st.stack|;
            var closed, next := st.stack[n - 1], Step(st, End(tag));
            && next.elementOpened == (st.elementOpened && closed.tag != tag)
            && if n == 1 then next.stack == [] && next.root == Some(closed)
               else
                 && next.root == st.root && |next.stack| == n - 1
                 && next.stack[..n - 2] == st.stack[..n - 2]
                 && next.stack[n - 2] == st.stack[n - 2].(children := st.stack[n - 2].children + [closed])
  {
    TagsByName(tag);
  }

  /** Data goes to the text of the innermost element while that is just opened, and else to its tail. */
  lemma DataIsTold(st: State, data: string)
    requires st.failure == NoFailure
    ensures st.stack == [] ==> Step(st, Data(data)) == st
    ensures st.stack != [] ==>
              var top := st.stack[|st.stack| - 1];
              Step(st, Data(data)) == st.(stack := st.stack[..|st.stack| - 1] + [
                if st.elementOpened then top.(text := top.text + data) else top.(tail := top.tail + data)])
  {
  }

  /** A self-closing tag of any name adds a child; a start tag outside of all elements opens a root. */
  lemma {:induction false} OtherTagsAreTold(st: State, tag: string, attrs: seq<(string, Option<string>)>)
    requires st.failure == NoFailure
    ensures var e := Element(tag, Dict(attrs), "", "", []);
            && HoldsAttributes(e.attrs, attrs)
            && (st.stack == [] ==> Step(st, Start(tag, attrs)) == if tag in FORMATTING_ELEMENTS then st else st.(stack := [e]))
            && (st.stack != [] ==>
                  var top := st.stack[|st.stack| - 1];
                  Step(st, StartEnd(tag, attrs))
                  == st.(stack := st.stack[..|st.stack| - 1] + [top.(children := top.children + [e])]))
  {
    TagsByName(tag);
    DictHoldsAttributes(attrs);
  }

  /** What fails, and how: after any events read so far, the next one fails exactly in these cases. */
  lemma EventFailsExactlyWhen(st: State, e: Event)
    requires st.failure == NoFailure
    ensures Step(st, e).failure ==
            if e.StartEnd? && st.stack == [] then NoParent
            else if !e.End? || e.tag in FORMATTING_ELEMENTS then NoFailure
            else if st.stack == [] then PopFromEmptyStack
            else if st.stack[|st.stack| - 1].tag != e.tag then ClosingTagsMismatch
            else NoFailure
  {
    if e.End? {
      TagsByName(e.tag);
    }
  }
}
