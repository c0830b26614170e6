/**
  The parser in its own form: _CloudHTMLParser (cloud_api/_push_notification.py) mutating a
  stack and a tree of shared element objects. An element is in its parent's list of children
  from its start tag on, while it is still on the stack, so the same object is reachable in
  two ways. Each handler is proved to do what HtmlParsing.Step says.
*/
module HtmlParser {
  import opened Wrappers
  import opened HtmlDocument
  import opened HtmlParsing

  class ElementObject {
    const tag: string
    const attrs: Attributes
    var text: string
    var tail: string
    var children: seq<ElementObject>

    // _make_normalized_element
    constructor (tag: string, attributes: seq<(string, Option<string>)>)
      ensures this.tag == tag && this.attrs == Dict(attributes) && HoldsAttributes(this.attrs, attributes)
      ensures text == "" && tail == "" && children == []
    {
      this.tag := tag;
      this.attrs := Dict(attributes);
      DictHoldsAttributes(attributes);
      text, tail, children := "", "", [];
    }
  }

  /** The closed elements, with the trees they stand for. */
  type Forest = map<ElementObject, Element>

  ghost predicate StartWithTrees(objects: seq<ElementObject>, trees: seq<Element>, closed: Forest) {
    && |trees| <= |objects|
    && forall k :: 0 <= k < |trees| ==> objects[k] in closed && closed[objects[k]] == trees[k]
  }

  ghost predicate SameFields(e: ElementObject, v: Element)
    reads e
  {
    e.tag == v.tag && e.attrs == v.attrs && e.text == v.text && e.tail == v.tail
  }

  /** The object e, with all of its children, stands for the tree v. */
  ghost predicate IsTree(e: ElementObject, v: Element, closed: Forest)
    reads e
  {
    SameFields(e, v) && |e.children| == |v.children| && StartWithTrees(e.children, v.children, closed)
  }

  /** The open object e stands for v, apart from its last child, which is the open element above it. */
  ghost predicate IsOpen(e: ElementObject, v: Element, above: ElementObject, closed: Forest)
    reads e
  {
    && SameFields(e, v) && StartWithTrees(e.children, v.children, closed)
    && |e.children| == |v.children| + 1 && e.children[|v.children|] == above
  }

  ghost predicate ForestOk(closed: Forest)
    reads closed.Keys
  {
    forall e <- closed :: IsTree(e, closed[e], closed)
  }

  lemma ForestGrows(closed: Forest, e: ElementObject, v: Element)
    requires e !in closed && ForestOk(closed) && IsTree(e, v, closed)
    ensures ForestOk(closed[e := v])
  {
  }

  lemma OpenStays(o: ElementObject, w: Element, above: ElementObject, closed: Forest, e: ElementObject, v: Element)
    requires e !in closed && IsOpen(o, w, above, closed)
    ensures IsOpen(o, w, above, closed[e := v])
  {
  }

  /** When the last child of an open element is closed, the element stands for the tree with that child. */
  lemma ParentIsTree(parent: ElementObject, w: Element, closed: Forest, e: ElementObject, v: Element)
    requires e !in closed && IsOpen(parent, w, e, closed)
    ensures IsTree(parent, HtmlParsing.Adopt(w, v), closed[e := v])
  {
  }

  /** The stack is the chain of open elements, each the last child of the one below it. */
  ghost predicate StackOk(stack: seq<ElementObject>, values: seq<Element>, closed: Forest)
    reads stack
  {
    var n := |stack|;
    && n == |values|
    && (forall i :: 0 <= i < n ==> stack[i] !in closed)
    && (forall i, j :: 0 <= i < j < n ==> stack[i] != stack[j])
    && (forall i :: 0 <= i < n - 1 ==> IsOpen(stack[i], values[i], stack[i + 1], closed))
    && (n > 0 ==> IsTree(stack[n - 1], values[n - 1], closed))
  }

  /** The tree's root is the bottom of the stack, or else the last root that was closed. */
  ghost predicate RootOk(root: ElementObject?, stack: seq<ElementObject>, value: Option<Element>, closed: Forest) {
    if stack != [] then root == stack[0]
    else if value == None then root == null
    else root != null && root in closed && closed[root] == value.value
  }

  /** The objects stand for the parser state st of HtmlParsing. */
  ghost predicate ParserOk(root: ElementObject?, stack: seq<ElementObject>, elementOpened: bool, closed: Forest, st: State)
    reads stack, closed.Keys
  {
    && ForestOk(closed)
    && StackOk(stack, st.stack, closed)
    && elementOpened == st.elementOpened
    && RootOk(root, stack, st.root, closed)
  }

  // The top of the stack is closed, and its parent is on top.
  lemma PoppedStackIsOk(stack: seq<ElementObject>, st: State, closed: Forest)
    requires st.stack != [] && StackOk(stack, st.stack, closed)
    ensures StackOk(stack[..|stack| - 1], Pop(st).stack, closed[stack[|stack| - 1] := Top(st)])
  {
    var n := |stack|;
    var e, v := stack[n - 1], Top(st);
    forall i | 0 <= i < n - 2
      ensures IsOpen(stack[i], st.stack[i], stack[i + 1], closed[e := v])
    {
      OpenStays(stack[i], st.stack[i], stack[i + 1], closed, e, v);
    }
    if n >= 2 {
      ParentIsTree(stack[n - 2], st.stack[n - 2], closed, e, v);
    }
  }

  lemma PoppedIsOk(root: ElementObject?, stack: seq<ElementObject>, elementOpened: bool, closed: Forest, st: State)
    requires ParserOk(root, stack, elementOpened, closed, st) && stack != []
    ensures var n := |stack|;
            && ParserOk(root, stack[..n - 1], elementOpened, closed[stack[n - 1] := Top(st)], Pop(st))
            && stack[n - 1].tag == Top(st).tag
  {
    PoppedStackIsOk(stack, st, closed);
    ForestGrows(closed, stack[|stack| - 1], Top(st));
  }

  // A new element, which the top of the stack already has as its last child, is pushed.
  lemma PushedStackIsOk(stack: seq<ElementObject>, values: seq<Element>, closed: Forest, e: ElementObject, v: Element)
    requires stack != [] && |stack| == |values|
    requires forall i :: 0 <= i < |stack| ==> stack[i] !in closed
    requires forall i, j :: 0 <= i < j < |stack| ==> stack[i] != stack[j]
    requires forall i :: 0 <= i < |stack| - 1 ==> IsOpen(stack[i], values[i], stack[i + 1], closed)
    requires IsOpen(stack[|stack| - 1], values[|stack| - 1], e, closed) && IsTree(e, v, closed)
    requires e !in stack && e !in closed
    ensures StackOk(stack + [e], values + [v], closed)
  {
  }

  class Parser {
    var root: ElementObject?
    var stack: seq<ElementObject>
    var elementOpened: bool
    ghost var closed: Forest

    ghost predicate Represents(st: State)
      reads this, stack, closed.Keys
    {
      ParserOk(root, stack, elementOpened, closed, st)
    }

    constructor ()
      ensures Represents(INIT) && fresh(this) && stack == [] && closed == map[]
    {
      root, stack, elementOpened := null, [], false;
      closed := map[];
    }

    method HandleData(data: string, ghost st: State)
      requires Represents(st) && st.failure == NoFailure
      modifies this, stack
      ensures Represents(Step(st, Data(data))) && stack == old(stack)
    {
      if stack == [] {
        return;
      }
      var current := stack[|stack| - 1];
      if elementOpened {
        current.text := current.text + data;
      } else {
        current.tail := current.tail + data;
      }
    }

    /** Appends an element that will stay without contents to the current element. */
    method AppendLeaf(leaf: ElementObject, ghost value: Element, ghost st: State)
      requires Represents(st) && stack != [] && leaf !in stack && leaf !in closed
      requires IsTree(leaf, value, closed)
      modifies this, stack
      ensures Represents(WithTop(st, HtmlParsing.Adopt(Top(st), value))) && stack == old(stack)
    {
      AddTree(leaf, value, st);
      AppendClosed(leaf, st);
    }

    method AppendClosed(leaf: ElementObject, ghost st: State)
      requires Represents(st) && stack != [] && leaf in closed
      modifies stack[|stack| - 1]
      ensures Represents(WithTop(st, HtmlParsing.Adopt(Top(st), closed[leaf])))
    {
      var current := stack[|stack| - 1];
      current.children := current.children + [leaf];
      assert IsTree(current, HtmlParsing.Adopt(Top(st), closed[leaf]), closed);
    }

    ghost method AddTree(e: ElementObject, value: Element, st: State)
      requires Represents(st) && e !in stack && e !in closed && IsTree(e, value, closed)
      modifies this`closed
      ensures Represents(st) && closed == old(closed)[e := value]
    {
      ForestGrows(closed, e, value);
      forall i | 0 <= i < |stack| - 1
        ensures IsOpen(stack[i], st.stack[i], stack[i + 1], closed[e := value])
      {
        OpenStays(stack[i], st.stack[i], stack[i + 1], closed, e, value);
      }
      closed := closed[e := value];
    }

    method AppendOpen(e: ElementObject, ghost value: Element, ghost st: State)
      requires Represents(st) && stack != [] && e !in stack && e !in closed
      requires SameFields(e, value) && e.children == [] && value.children == []
      modifies this, stack
      ensures stack == old(stack) + [e]
      ensures Represents(st.(stack := st.stack + [value], elementOpened := true))
    {
      var current := stack[|stack| - 1];
      current.children := current.children + [e];
      PushedStackIsOk(stack, st.stack, closed, e, value);
      elementOpened := true;
      stack := stack + [e];
    }

    method SetAsRoot(e: ElementObject, ghost value: Element, ghost st: State)
      requires Represents(st) && st.failure == NoFailure && stack == [] && e !in closed
      requires IsTree(e, value, closed)
      modifies this
      ensures Represents(st.(stack := [value])) && stack == [e]
    {
      root := e;
      stack := [e];
    }

    method HandleStartEndTag(tag: string, attrs: seq<(string, Option<string>)>, ghost st: State)
      returns (failure: Failure)
      requires Represents(st) && st.failure == NoFailure
      modifies this, stack
      ensures var st' := Step(st, StartEnd(tag, attrs));
              Represents(st') && failure == st'.failure && stack == old(stack)
    {
      var newElement := new ElementObject(tag, attrs);
      if stack == [] {
        return NoParent;
      }
      AppendLeaf(newElement, NewElement(tag, attrs), st);
      return NoFailure;
    }

    method HandleStartTag(tag: string, attrs: seq<(string, Option<string>)>, ghost st: State)
      requires Represents(st) && st.failure == NoFailure
      modifies this, stack
      ensures Represents(Step(st, Start(tag, attrs)))
      ensures fresh(Elements(stack) - old(Elements(stack)))
    {
      if IsFormat(tag) {
        return;
      }
      var newElement := new ElementObject(tag, attrs);
      if stack == [] {
        SetAsRoot(newElement, NewElement(tag, attrs), st);
        return;
      }
      if IsVoid(tag) {
        AppendLeaf(newElement, NewElement(tag, attrs), st);
      } else {
        AppendOpen(newElement, NewElement(tag, attrs), st);
      }
    }

    static ghost function Elements(s: seq<ElementObject>): set<ElementObject> {
      set e | e in s
    }

    method PopElement(ghost st: State) returns (e: ElementObject)
      requires Represents(st) && stack != []
      modifies this
      ensures Represents(Pop(st)) && old(stack) == stack + [e] && e.tag == Top(st).tag
    {
      e := stack[|stack| - 1];
      PoppedIsOk(root, stack, elementOpened, closed, st);
      stack := stack[..|stack| - 1];
      closed := closed[e := Top(st)];
    }

    method HandleEndTag(tag: string, ghost st: State) returns (failure: Failure)
      requires Represents(st) && st.failure == NoFailure
      modifies this
      ensures Represents(Step(st, End(tag))) && failure == Step(st, End(tag)).failure
      ensures Elements(stack) <= old(Elements(stack))
    {
      if IsFormat(tag) {
        return NoFailure;
      }
      if stack == [] {
        return PopFromEmptyStack;
      }
      var topElement := PopElement(st);
      if topElement.tag != tag {
        return ClosingTagsMismatch;
      }
      elementOpened := false;
      return NoFailure;
    }

    method Handle(event: Event, ghost st: State) returns (failure: Failure)
      requires Represents(st) && st.failure == NoFailure
      modifies this, stack
      ensures Represents(Step(st, event)) && failure == Step(st, event).failure
      ensures fresh(Elements(stack) - old(Elements(stack)))
    {
      failure := NoFailure;
      match event
      case Data(data) => HandleData(data, st);
      case StartEnd(tag, attrs) => failure := HandleStartEndTag(tag, attrs, st);
      case Start(tag, attrs) => HandleStartTag(tag, attrs, st);
      case End(tag) => failure := HandleEndTag(tag, st);
    }

    /** HTMLParser.feed from the events on: an exception ends the parsing. */
    method Feed(events: seq<Event>, ghost st: State) returns (failure: Failure)
      requires Represents(st) && st.failure == NoFailure
      modifies this, stack
      ensures Represents(Run(st, events)) && failure == Run(st, events).failure
    {
      var i := 0;
      ghost var now := st;
      failure := NoFailure;
      while i < |events| && failure == NoFailure
        invariant 0 <= i <= |events|
        invariant Represents(now) && failure == now.failure
        invariant Run(now, events[i..]) == Run(st, events)
        invariant fresh(Elements(stack) - old(Elements(stack)))
      {
        assert events[i..][1..] == events[i + 1..];
        failure := Handle(events[i], now);
        now := Step(now, events[i]);
        i := i + 1;
      }
      if failure != NoFailure {
        FailureStays(now, events[i..]);
      }
    }
  }

  /** The objects under root stand for the tree, or there is no root. */
  ghost predicate IsRoot(root: ElementObject?, tree: Option<Element>, closed: Forest)
    reads closed.Keys
  {
    && ForestOk(closed)
    && if tree == None then root == null else root != null && root in closed && closed[root] == tree.value
  }

  /**
    _parse_html: parses exactly the printed documents to the end, to the tree of their last root.
    Of other events the objects stand for the state in which the parsing ended.
  */
  method ParseHtml(events: seq<Event>) returns (parser: Parser, failure: Failure)
    ensures fresh(parser)
    ensures parser.Represents(Run(INIT, events)) && failure == Run(INIT, events).failure
    ensures failure == NoFailure && parser.stack == [] <==> exists d :: IsDocument(d, events)
    ensures forall d :: IsDocument(d, events) ==> IsRoot(parser.root, LastRoot(d, None), parser.closed)
  {
    parser := new Parser();
    failure := parser.Feed(events, INIT);
    AcceptsExactlyDocuments(events);
    forall d | IsDocument(d, events)
      ensures IsRoot(parser.root, LastRoot(d, None), parser.closed)
    {
      TopLevelIsRebuilt(INIT, d);
    }
  }
}
