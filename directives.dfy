/** The list and string logic of three directives in webapp/app/js/directives/main.js:
    the `numbersOnly` input parser, `thMultiSelect`'s moving of selected options between
    two lists, and `thTruncatedList`'s clamp-and-split of a list into a visible head and
    a "N others" remainder. DOM rendering is reduced to the strings it would show. */
module Directives {
  import opened JsValues

  // ---------------------------------------------------------------------------
  // numbersOnly

  /** `s.replace(/[^0-9]/g, '')`: every character that is not an ASCII digit removed. */
  function DigitsOnly(s: string): (r: string)
    ensures |r| <= |s|
    ensures AllDigits(r)
  {
    if s == [] then []
    else DigitsOnly(s[..|s| - 1]) + (if IsDigit(s[|s| - 1]) then [s[|s| - 1]] else [])
  }

  /** Removing non-digits works piecewise, so the digits keep their order. */
  lemma {:induction false} DigitsOnlyConcat(a: string, b: string)
    ensures DigitsOnly(a + b) == DigitsOnly(a) + DigitsOnly(b)
  {
    if b == [] {
      assert a + b == a;
    } else {
      var b' := b[..|b| - 1];
      var c := b[|b| - 1];
      assert (a + b)[..|a + b| - 1] == a + b';
      assert (a + b)[|a + b| - 1] == c;
      DigitsOnlyConcat(a, b');
      calc {
        DigitsOnly(a + b);
        DigitsOnly(a + b') + (if IsDigit(c) then [c] else []);
        DigitsOnly(a) + DigitsOnly(b') + (if IsDigit(c) then [c] else []);
        DigitsOnly(a) + DigitsOnly(b);
      }
    }
  }

  /** The digits are kept with their multiplicities; nothing else survives. */
  lemma {:induction false} DigitsOnlyCounts(s: string, c: char)
    ensures multiset(DigitsOnly(s))[c] == if IsDigit(c) then multiset(s)[c] else 0
  {
    if s != [] {
      var s' := s[..|s| - 1];
      assert s == s' + [s[|s| - 1]];
      DigitsOnlyCounts(s', c);
    }
  }

  /** The parser leaves its input alone exactly when the input is all digits. */
  lemma {:induction false} DigitsOnlyFixedPoint(s: string)
    ensures DigitsOnly(s) == s <==> AllDigits(s)
  {
    if s != [] {
      var s' := s[..|s| - 1];
      DigitsOnlyFixedPoint(s');
      if !IsDigit(s[|s| - 1]) {
        assert |DigitsOnly(s)| < |s|;
      } else {
        assert s == s' + [s[|s| - 1]];
        assert AllDigits(s) <==> AllDigits(s');
      }
    }
  }

  lemma DigitsOnlyIdempotent(s: string)
    ensures DigitsOnly(DigitsOnly(s)) == DigitsOnly(s)
  {
    DigitsOnlyFixedPoint(DigitsOnly(s));
  }

  /** What the parser returns to the model, and the value it writes back to the view
      (`$setViewValue` followed by `$render`) when it had to change the input. */
  datatype ParserOutcome = ParserOutcome(value: string, newViewValue: Option<string>)

  /** The `numbersOnly` parser. `None` stands for an `undefined` or `null` input. */
  function NumbersOnlyParser(input: Option<string>): (o: ParserOutcome)
    ensures input.None? ==> o == ParserOutcome("", None)
    ensures input.Some? ==> o.value == DigitsOnly(input.value)
    ensures input.Some? ==> (o.newViewValue.Some? <==> !AllDigits(input.value))
    ensures o.newViewValue.Some? ==> o.newViewValue.value == o.value
  {
    match input
    case None => ParserOutcome("", None)
    case Some(s) =>
      var t := DigitsOnly(s);
      DigitsOnlyFixedPoint(s);
      ParserOutcome(t, if t != s then Some(t) else None)
  }

  /** Writing the cleaned value back to the view runs the parser again; that second run
      returns the same value and does not write again. */
  lemma NumbersOnlyReparse(s: string)
    ensures var o := NumbersOnlyParser(Some(s));
            NumbersOnlyParser(Some(o.value)) == ParserOutcome(o.value, None)
  {
    DigitsOnlyIdempotent(s);
    DigitsOnlyFixedPoint(DigitsOnly(s));
  }

  // ---------------------------------------------------------------------------
  // thMultiSelect

  /** One step of `move_options`: `to.push(from.splice(found, 1)[0])` when `x` is found. */
  function MoveOne<T(==)>(x: T, from: seq<T>, to: seq<T>): (r: (seq<T>, seq<T>))
    ensures x !in from ==> r == (from, to)
    ensures x in from ==> r.1 == to + [x]
    ensures x in from ==> var i := IndexOf(from, x); r.0 == from[..i] + from[i + 1..]
    ensures multiset(r.0) + multiset(r.1) == multiset(from) + multiset(to)
  {
    var found := IndexOf(from, x);
    if found == -1 then (from, to)
    else
      assert from == from[..found] + [from[found]] + from[found + 1..];
      (from[..found] + from[found + 1..], to + [from[found]])
  }

  /** `move_options(what, from, to)`: each item of `what`, in order, moved if still in `from`. */
  function MoveAll<T(==)>(what: seq<T>, from: seq<T>, to: seq<T>): (seq<T>, seq<T>)
  {
    if what == [] then (from, to)
    else
      var r := MoveAll(what[..|what| - 1], from, to);
      MoveOne(what[|what| - 1], r.0, r.1)
  }

  /** Moving never loses or duplicates an option: the two lists together keep their contents,
      hence their total length, and `to` only grows at its end. */
  lemma {:induction false} MoveAllConserves<T>(what: seq<T>, from: seq<T>, to: seq<T>)
    ensures var r := MoveAll(what, from, to);
            multiset(r.0) + multiset(r.1) == multiset(from) + multiset(to) &&
            |r.0| + |r.1| == |from| + |to| &&
            to <= r.1
  {
    if what != [] {
      MoveAllConserves(what[..|what| - 1], from, to);
      var r := MoveAll(what, from, to);
      assert |multiset(r.0) + multiset(r.1)| == |multiset(from) + multiset(to)|;
    }
  }

  /** One step that finds its item moves exactly that item. */
  lemma MoveOnePresent<T>(x: T, from: seq<T>, to: seq<T>)
    requires x in from
    ensures MoveOne(x, from, to).1 == to + [x]
    ensures multiset(MoveOne(x, from, to).0) + multiset{x} == multiset(from)
  {
    var r := MoveOne(x, from, to);
    assert multiset(r.1) == multiset(to) + multiset{x};
    forall y
      ensures (multiset(r.0) + multiset{x})[y] == multiset(from)[y]
    {
      assert (multiset(r.0) + multiset(r.1))[y] == (multiset(from) + multiset(to))[y];
    }
  }

  /** When every selected item is present in `from` (with multiplicity), all of them are moved:
      `to` gains exactly `what`, in order, and `from` loses exactly those items. */
  lemma {:induction false} MoveAllSelected<T>(what: seq<T>, from: seq<T>, to: seq<T>)
    requires multiset(what) <= multiset(from)
    ensures MoveAll(what, from, to).1 == to + what
    ensures multiset(MoveAll(what, from, to).0) + multiset(what) == multiset(from)
  {
    if what != [] {
      var w' := what[..|what| - 1];
      var x := what[|what| - 1];
      assert what == w' + [x];
      var mw, mw' := multiset(what), multiset(w');
      assert mw == mw' + multiset{x};
      MoveAllSelected(w', from, to);
      var r' := MoveAll(w', from, to);
      assert MoveAll(what, from, to) == MoveOne(x, r'.0, r'.1);
      assert x in r'.0 by {
        assert multiset(r'.0)[x] + mw'[x] == multiset(from)[x];
      }
      MoveOnePresent(x, r'.0, r'.1);
    }
  }

  /** The two bound lists and the two selections of one `thMultiSelect` widget. */
  class MultiSelect<T(==)> {
    var leftList: seq<T>
    var rightList: seq<T>
    var leftSelected: seq<T>
    var rightSelected: seq<T>

    /** The link function: the given lists, and both selections empty. */
    constructor (leftList: seq<T>, rightList: seq<T>)
      ensures this.leftList == leftList && this.rightList == rightList
      ensures leftSelected == [] && rightSelected == []
    {
      this.leftList := leftList;
      this.rightList := rightList;
      leftSelected := [];
      rightSelected := [];
    }

    /** `move_options`: the loop over `what`, splicing from `from` and pushing onto `to`. */
    static method MoveOptions(what: seq<T>, from: seq<T>, to: seq<T>) returns (from': seq<T>, to': seq<T>)
      ensures (from', to') == MoveAll(what, from, to)
    {
      from', to' := from, to;
      for i := 0 to |what|
        invariant (from', to') == MoveAll(what[..i], from, to)
      {
        assert what[..i + 1][..i] == what[..i];
        var found := IndexOf(from', what[i]);
        if found != -1 {
          to' := to' + [from'[found]];
          from' := from'[..found] + from'[found + 1..];
        }
      }
      assert what[..|what|] == what;
    }

    /** `move_left`: the options selected on the right go to the left list. */
    method MoveLeft()
      modifies this
      ensures (rightList, leftList) == MoveAll(old(rightSelected), old(rightList), old(leftList))
      ensures leftSelected == old(leftSelected) && rightSelected == old(rightSelected)
    {
      rightList, leftList := MoveOptions(rightSelected, rightList, leftList);
    }

    /** `move_right`: the options selected on the left go to the right list. */
    method MoveRight()
      modifies this
      ensures (leftList, rightList) == MoveAll(old(leftSelected), old(leftList), old(rightList))
      ensures leftSelected == old(leftSelected) && rightSelected == old(rightSelected)
    {
      leftList, rightList := MoveOptions(leftSelected, leftList, rightList);
    }
  }

  // ---------------------------------------------------------------------------
  // thTruncatedList

  /** `parseInt(scope.visible)` and the check that throws a TypeError for a negative or NaN
      result. `None` is an absent attribute, which `parseInt` reads as "undefined". */
  function ParseVisible(attr: Option<string>): (r: Result<nat>)
    ensures var p := ParseInt(if attr.Some? then attr.value else "undefined");
            r.Failure? <==> (p.None? || p.value < 0)
    ensures r.Success? ==> Some(r.value as int) == ParseInt(if attr.Some? then attr.value else "undefined")
  {
    var p := ParseInt(if attr.Some? then attr.value else "undefined");
    if p.None? || p.value < 0 then Failure("TypeError") else Success(p.value)
  }

  /** An attribute written as a number is accepted exactly when that number is not negative. */
  lemma ParseVisibleOfNumber(n: int)
    ensures ParseVisible(Some(IntToString(n))) == if n < 0 then Failure("TypeError") else Success(n)
  {
    ParseIntRoundTrip(n);
  }

  /** The split done on the copy of the list: the first `visible` elements, and the rest. */
  function Split(list: seq<JsValue>, visible: nat): (r: (seq<JsValue>, seq<JsValue>))
    ensures r.0 + r.1 == list
    ensures |r.0| == if visible < |list| then visible else |list|
  {
    var n := if visible < |list| then visible else |list|;
    (list[..n], list[n..])
  }

  /** What the directive shows: the head joined by ", ", and, when something is hidden,
      a link titled with the hidden elements and captioned " and N others". */
  datatype MoreLink = MoreLink(title: string, caption: string)
  datatype Rendering = Rendering(text: string, more: Option<MoreLink>)

  function Render(list: seq<JsValue>, visible: nat): (v: Rendering)
    ensures v.text == Join(Split(list, visible).0, ", ")
    ensures v.more.Some? <==> visible < |list|
    ensures v.more.Some? ==> v.more.value.title == Join(list[visible..], ", ")
    ensures v.more.Some? ==> v.more.value.caption == " and " + IntToString(|list| - visible) + " others"
  {
    var (shown, hidden) := Split(list, visible);
    Rendering(Join(shown, ", "),
              if |hidden| > 0 then Some(MoreLink(Join(hidden, ", "), " and " + IntToString(|hidden|) + " others"))
              else None)
  }

  /** One `thTruncatedList` element: the parsed `visible` count kept in its scope. */
  class TruncatedList {
    var visible: nat

    constructor (visible: nat)
      ensures this.visible == visible
    {
      this.visible := visible;
    }

    /** The link function: parse the attribute, throwing a TypeError for a bad count. */
    static method Link(attr: Option<string>) returns (r: Result<TruncatedList>)
      ensures r.Failure? <==> ParseVisible(attr).Failure?
      ensures r.Success? ==> fresh(r.value) && r.value.visible == ParseVisible(attr).value
    {
      var p := ParseVisible(attr);
      if p.Failure? {
        return Failure(p.error);
      }
      var t := new TruncatedList(p.value);
      return Success(t);
    }

    /** The watch on `elem_list`: clamp `visible` to the list's length (written back to the
        scope), then render the head and the remainder of a copy of the list.
        `None` is a falsy list, which the watch ignores. */
    method OnElements(elements: Option<seq<JsValue>>) returns (view: Option<Rendering>)
      modifies this
      ensures elements.None? ==> view.None? && visible == old(visible)
      ensures elements.Some? ==> visible == (if old(visible) < |elements.value| then old(visible) else |elements.value|)
      ensures elements.Some? ==> view == Some(Render(elements.value, visible))
      ensures visible <= old(visible)
    {
      if elements.None? {
        return None;
      }
      var list := elements.value;
      visible := if visible < |list| then visible else |list|;
      view := Some(Render(list, visible));
    }
  }
}
