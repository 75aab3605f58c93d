/**
 * The label templates of the parser rules (`make_label_function`). A template is applied
 * with Python's `str.format` to the arguments `[""] + groups`, so that `{1}` is the first
 * group of the match; whatever goes wrong yields the sentinel label instead of an error.
 */
module Labels {
  import opened Wrappers

  /**
   * One piece of a template, as `str.format` splits it: literal text (with `{{` and `}}`
   * already unescaped), a numbered field `{n}`, or an automatically numbered field `{}`.
   */
  datatype Piece = Lit(text: string) | Field(index: nat) | Next

  /** A template split into pieces, or one `str.format` rejects outright (an unmatched brace, a named field). */
  datatype Template = Pieces(pieces: seq<Piece>) | Malformed

  const InternalError: string := "__internal_error__"

  /** `str()` of a match group; a group that did not take part in the match is `None`. */
  function RenderGroup(g: Option<string>): string {
    match g
    case Some(s) => s
    case None => "None"
  }

  /** The arguments handed to `str.format`: the empty string, then each group. */
  function FormatArgs(groups: seq<Option<string>>): (args: seq<string>)
    ensures |args| == |groups| + 1 && args[0] == ""
    ensures forall i :: 0 < i < |args| ==> args[i] == RenderGroup(groups[i - 1])
  {
    [""] + seq(|groups|, i requires 0 <= i < |groups| => RenderGroup(groups[i]))
  }

  /** How `str.format` numbers fields so far: not yet, automatically (next index), or by hand. */
  datatype Numbering = Unset | Automatic(next: nat) | Manual

  function Prepend(s: string, rest: Option<string>): Option<string> {
    match rest
    case Some(t) => Some(s + t)
    case None => None
  }

  /**
   * `str.format` walking the pieces left to right: a field index past the arguments
   * raises `IndexError`, and switching between `{}` and `{n}` raises `ValueError`;
   * both are `None`.
   */
  function FormatFrom(pieces: seq<Piece>, args: seq<string>, numbering: Numbering): Option<string>
    decreases |pieces|
  {
    if pieces == [] then Some("")
    else
      var rest := pieces[1..];
      match pieces[0]
      case Lit(t) => Prepend(t, FormatFrom(rest, args, numbering))
      case Field(n) =>
        if numbering.Automatic? || n >= |args| then None
        else Prepend(args[n], FormatFrom(rest, args, Manual))
      case Next =>
        if numbering.Manual? then None
        else
          var k := if numbering.Automatic? then numbering.next else 0;
          if k >= |args| then None else Prepend(args[k], FormatFrom(rest, args, Automatic(k + 1)))
  }

  function Format(t: Template, args: seq<string>): Option<string> {
    match t
    case Malformed => None
    case Pieces(pieces) => FormatFrom(pieces, args, Unset)
  }

  // An independent description of a successful format: which argument each field takes,
  // when every field can be filled, and the text that results.

  function CountNext(s: seq<Piece>): nat {
    if s == [] then 0 else CountNext(s[..|s| - 1]) + (if s[|s| - 1].Next? then 1 else 0)
  }

  predicate HasField(s: seq<Piece>) {
    exists i :: 0 <= i < |s| && s[i].Field?
  }

  predicate HasNext(s: seq<Piece>) {
    exists i :: 0 <= i < |s| && s[i].Next?
  }

  /** The argument the k-th piece takes: its own index, or the number of `{}` before it. */
  function Slot(pieces: seq<Piece>, k: nat): nat
    requires k < |pieces| && !pieces[k].Lit?
  {
    if pieces[k].Field? then pieces[k].index else CountNext(pieces[..k])
  }

  /** No mix of `{}` and `{n}`, and every field names an existing argument. */
  predicate Formattable(pieces: seq<Piece>, args: seq<string>) {
    !(HasField(pieces) && HasNext(pieces))
    && forall k :: 0 <= k < |pieces| && !pieces[k].Lit? ==> Slot(pieces, k) < |args|
  }

  function PieceText(pieces: seq<Piece>, args: seq<string>, k: nat): string
    requires Formattable(pieces, args) && k < |pieces|
  {
    match pieces[k]
    case Lit(t) => t
    case _ => args[Slot(pieces, k)]
  }

  /** The text of the pieces from the i-th on, each field replaced by its argument. */
  function ExpandFrom(pieces: seq<Piece>, args: seq<string>, i: nat): string
    requires Formattable(pieces, args) && i <= |pieces|
    decreases |pieces| - i
  {
    if i == |pieces| then "" else PieceText(pieces, args, i) + ExpandFrom(pieces, args, i + 1)
  }

  function Expand(pieces: seq<Piece>, args: seq<string>): string
    requires Formattable(pieces, args)
  {
    ExpandFrom(pieces, args, 0)
  }

  /** The numbering state `str.format` is in after the given pieces, when it has not failed. */
  function NumberingAfter(prefix: seq<Piece>): Numbering {
    if HasField(prefix) then Manual
    else if HasNext(prefix) then Automatic(CountNext(prefix))
    else Unset
  }

  lemma {:induction false} CountNextNone(s: seq<Piece>)
    requires !HasNext(s)
    ensures CountNext(s) == 0
  {
    if s != [] {
      CountNextNone(s[..|s| - 1]);
    }
  }

  lemma ExtendPrefix(pieces: seq<Piece>, i: nat)
    requires i < |pieces|
    ensures var pre, pre' := pieces[..i], pieces[..i + 1];
            (HasField(pre') <==> HasField(pre) || pieces[i].Field?)
            && (HasNext(pre') <==> HasNext(pre) || pieces[i].Next?)
            && CountNext(pre') == CountNext(pre) + (if pieces[i].Next? then 1 else 0)
  {
    var pre, pre' := pieces[..i], pieces[..i + 1];
    assert pre'[..i] == pre;
    assert forall j :: 0 <= j < i ==> pre'[j] == pre[j];
    assert pre'[i] == pieces[i];
  }

  /** From the i-th piece on, `str.format` succeeds exactly when the template is formattable, with the expanded text. */
  lemma {:induction false} FormatFromAgrees(pieces: seq<Piece>, args: seq<string>, i: nat)
    requires i <= |pieces|
    requires !(HasField(pieces[..i]) && HasNext(pieces[..i]))
    requires forall k :: 0 <= k < i && !pieces[k].Lit? ==> Slot(pieces, k) < |args|
    ensures FormatFrom(pieces[i..], args, NumberingAfter(pieces[..i]))
            == if Formattable(pieces, args) then Some(ExpandFrom(pieces, args, i)) else None
    decreases |pieces| - i
  {
    var numbering := NumberingAfter(pieces[..i]);
    if i == |pieces| {
      assert pieces[..i] == pieces;
    } else {
      var p := pieces[i];
      assert pieces[i..][0] == p;
      assert pieces[i..][1..] == pieces[i + 1..];
      ExtendPrefix(pieces, i);
      match p
      case Lit(t) =>
        FormatFromAgrees(pieces, args, i + 1);
      case Field(n) =>
        if numbering.Automatic? {
          assert HasField(pieces) by { assert pieces[i].Field?; }
          assert HasNext(pieces) by {
            var j :| 0 <= j < i && pieces[..i][j].Next?;
            assert pieces[j].Next?;
          }
        } else if n >= |args| {
          assert Slot(pieces, i) == n;
        } else {
          FormatFromAgrees(pieces, args, i + 1);
        }
      case Next =>
        if numbering.Manual? {
          assert HasNext(pieces) by { assert pieces[i].Next?; }
          assert HasField(pieces) by {
            var j :| 0 <= j < i && pieces[..i][j].Field?;
            assert pieces[j].Field?;
          }
        } else {
          if numbering.Unset? {
            CountNextNone(pieces[..i]);
          }
          assert Slot(pieces, i) == CountNext(pieces[..i]);
          if CountNext(pieces[..i]) < |args| {
            FormatFromAgrees(pieces, args, i + 1);
          }
        }
    }
  }

  /**
   * The label a rule's function gives a match with these groups. It never fails: a
   * formattable template yields its expansion, in which `{0}` is the empty string and `{i}`
   * the i-th group; anything else yields exactly the sentinel.
   */
  function Label(t: Template, groups: seq<Option<string>>): (r: string)
    ensures t.Malformed? ==> r == InternalError
    ensures t.Pieces? && Formattable(t.pieces, FormatArgs(groups)) ==> r == Expand(t.pieces, FormatArgs(groups))
    ensures t.Pieces? && !Formattable(t.pieces, FormatArgs(groups)) ==> r == InternalError
  {
    if t.Pieces? then
      FormatFromAgrees(t.pieces, FormatArgs(groups), 0);
      assert t.pieces[..0] == [] && t.pieces[0..] == t.pieces;
      match Format(t, FormatArgs(groups))
      case Some(s) => s
      case None => InternalError
    else InternalError
  }

  /** `make_label_function(label)`: the function from the groups of a match to its label. */
  function MakeLabelFunction(t: Template): (f: seq<Option<string>> -> string)
    ensures forall groups ::
              f(groups) == (if t.Pieces? && Formattable(t.pieces, FormatArgs(groups))
                            then Expand(t.pieces, FormatArgs(groups)) else InternalError)
  {
    groups => Label(t, groups)
  }

  /** `{0}` is the empty string, whatever the groups. */
  lemma LabelFieldZero(groups: seq<Option<string>>)
    ensures MakeLabelFunction(Pieces([Field(0)]))(groups) == ""
  {
    var args := FormatArgs(groups);
    assert Formattable([Field(0)], args);
    assert ExpandFrom([Field(0)], args, 1) == "";
  }

  /** `text{i}text'` is the i-th group between the two literal texts, copied unchanged. */
  lemma LabelGroupBetween(before: string, i: nat, after: string, groups: seq<Option<string>>)
    requires 1 <= i <= |groups|
    ensures MakeLabelFunction(Pieces([Lit(before), Field(i), Lit(after)]))(groups)
            == before + RenderGroup(groups[i - 1]) + after
  {
    var pieces, args := [Lit(before), Field(i), Lit(after)], FormatArgs(groups);
    assert !HasNext(pieces);
    assert Formattable(pieces, args);
    assert ExpandFrom(pieces, args, 3) == "";
    assert ExpandFrom(pieces, args, 2) == after;
    assert ExpandFrom(pieces, args, 1) == RenderGroup(groups[i - 1]) + after;
  }

  /** A field past the last group makes the label exactly the sentinel. */
  lemma LabelFieldOutOfRange(pieces: seq<Piece>, k: nat, groups: seq<Option<string>>)
    requires k < |pieces| && pieces[k].Field? && pieces[k].index > |groups|
    ensures MakeLabelFunction(Pieces(pieces))(groups) == InternalError
  {
    assert Slot(pieces, k) >= |FormatArgs(groups)|;
  }

  /** `{}` numbers fields from 0: `{}{}` gives the empty string followed by the first group. */
  lemma LabelAutomaticNumbering(groups: seq<Option<string>>)
    requires |groups| >= 1
    ensures MakeLabelFunction(Pieces([Next, Next]))(groups) == RenderGroup(groups[0])
  {
    var pieces, args := [Next, Next], FormatArgs(groups);
    assert pieces[..0] == [] && pieces[..1] == [Next];
    assert CountNext(pieces[..1]) == 1;
    assert !HasField(pieces);
    assert Formattable(pieces, args);
    assert ExpandFrom(pieces, args, 1) == RenderGroup(groups[0]);
  }

  /** Mixing `{}` with `{n}` makes the label the sentinel, even when every index exists. */
  lemma LabelMixedNumbering(groups: seq<Option<string>>)
    ensures MakeLabelFunction(Pieces([Next, Field(0)]))(groups) == InternalError
  {
    var pieces := [Next, Field(0)];
    assert pieces[0].Next? && pieces[1].Field?;
    assert HasField(pieces) && HasNext(pieces);
  }
}
