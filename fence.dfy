/**
 * The clean-up applied to a structured reply of the language model before it
 * is parsed or saved (events and prioritisation stages): strip the reply, then
 * delete an opening "```json" fence at the very start together with the
 * whitespace after it, then delete a closing "```" fence at the end together
 * with the whitespace before it. It unwraps one Markdown code fence; it is not
 * a Markdown parser.
 */
module Fence {
  import opened Text

  const OpeningFence := "```json"
  const ClosingFence := "```"
  const ClosingFenceNewline := "```\n"

  /** Delete the pattern `^```json\s*`: anchored at the start only, the whitespace run taken whole. */
  function DropOpening(t: string): (r: string)
    ensures |r| <= |t| && r == t[|t| - |r|..]
    ensures StartsWith(t, OpeningFence) ==>
      && |r| <= |t| - |OpeningFence|
      && IsBlank(t[|OpeningFence|..|t| - |r|])
      && (r == [] || !IsSpace(r[0]))
    ensures !StartsWith(t, OpeningFence) ==> r == t
  {
    if StartsWith(t, OpeningFence) then
      var rest := t[|OpeningFence|..];
      var r := LStrip(rest);
      assert rest[..|rest| - |r|] == t[|OpeningFence|..|t| - |r|];
      r
    else t
  }

  /**
   * Delete the pattern `\s*```$`. The leftmost match starts at the first of the
   * whitespace characters before the final fence; `$` also matches just before
   * a newline that ends the string, which is then kept.
   */
  function DropClosing(u: string): (r: string)
    ensures |r| <= |u|
    ensures EndsWith(u, ClosingFence) ==>
      && |r| <= |u| - |ClosingFence|
      && r == u[..|r|]
      && IsBlank(u[|r|..|u| - |ClosingFence|])
      && (r == [] || !IsSpace(r[|r| - 1]))
    ensures !EndsWith(u, ClosingFence) && EndsWith(u, ClosingFenceNewline) ==>
      && 0 < |r| <= |u| - |ClosingFence|
      && r == u[..|r| - 1] + "\n"
      && IsBlank(u[|r| - 1..|u| - |ClosingFenceNewline|])
      && (|r| == 1 || !IsSpace(r[|r| - 2]))
    ensures !EndsWith(u, ClosingFence) && !EndsWith(u, ClosingFenceNewline) ==> r == u
  {
    if EndsWith(u, ClosingFence) then
      var body := u[..|u| - 3];
      var r := RStrip(body);
      assert body[|r|..] == u[|r|..|u| - 3];
      r
    else if EndsWith(u, ClosingFenceNewline) then
      var body := u[..|u| - 4];
      var p := RStrip(body);
      assert body[|p|..] == u[|p|..|u| - 4];
      p + "\n"
    else
      u
  }

  lemma DropOpeningTrimmed(t: string)
    requires Trimmed(t)
    ensures Trimmed(DropOpening(t))
  {
    var u := DropOpening(t);
    if u != [] && StartsWith(t, OpeningFence) {
      assert u[|u| - 1] == t[|t| - 1];
    }
  }

  /** A string that ends in a newline ends in whitespace. */
  lemma EndsWithNewlineNotTrimmed(u: string)
    ensures EndsWith(u, ClosingFenceNewline) ==> u[|u| - 1] == '\n'
  {
  }

  lemma DropClosingTrimmed(u: string)
    requires Trimmed(u)
    ensures DropClosing(u) == if EndsWith(u, ClosingFence) then RStrip(u[..|u| - 3]) else u
    ensures Trimmed(DropClosing(u))
  {
    EndsWithNewlineNotTrimmed(u);
    var v := DropClosing(u);
    if v != [] && EndsWith(u, ClosingFence) {
      assert v[0] == u[0];
    }
  }

  /** The cleaned reply, the text that is then parsed and written. */
  function CleanFence(reply: string): (r: string)
    ensures Trimmed(r)
  {
    DropOpeningTrimmed(Strip(reply));
    DropClosingTrimmed(DropOpening(Strip(reply)));
    DropClosing(DropOpening(Strip(reply)))
  }

  /** Cleaning never leaves whitespace at either end, so a second strip changes nothing. */
  lemma CleanFenceIsStripped(reply: string)
    ensures Strip(CleanFence(reply)) == CleanFence(reply)
  {
    StripTrimmedIsIdentity(CleanFence(reply));
  }

  /** A reply with neither wrapper passes through unchanged apart from the strip. */
  lemma CleanFencePassesUnwrapped(reply: string)
    requires !StartsWith(Strip(reply), OpeningFence)
    requires !EndsWith(Strip(reply), ClosingFence)
    ensures CleanFence(reply) == Strip(reply)
  {
    DropClosingTrimmed(Strip(reply));
  }

  /** Text that opens with the fence loses the fence and the whitespace after it. */
  lemma DropOpeningOfFenced(rest: string)
    ensures DropOpening(OpeningFence + rest) == LStrip(rest)
  {
    var t := OpeningFence + rest;
    assert t[..|OpeningFence|] == OpeningFence;
    assert t[|OpeningFence|..] == rest;
  }

  /** A trimmed body, whitespace and the closing fence lose the whitespace and the fence. */
  lemma DropClosingOfFenced(body: string, after: string)
    requires Trimmed(body) && IsBlank(after)
    ensures DropClosing(body + after + ClosingFence) == body
  {
    var u := body + after + ClosingFence;
    assert u[|u| - 3..] == ClosingFence;
    assert u[..|u| - 3] == body + after;
    RStripBeforeBlank(body, after);
  }

  /** After the opening fence and its whitespace, an empty body leaves just the closing fence. */
  lemma LStripBeforeEmptyBody(before: string, after: string)
    requires IsBlank(before) && IsBlank(after)
    ensures LStrip(before + after + ClosingFence) == ClosingFence
  {
    assert IsBlank(before + after);
    assert before + after + ClosingFence == (before + after) + ClosingFence;
    assert ClosingFence[0] == '`';
    LStripAfterBlank(before + after, ClosingFence);
  }

  /** After the opening fence and its whitespace, the closing part starts at the body. */
  lemma LStripBeforeBody(before: string, body: string, after: string)
    requires Trimmed(body) && IsBlank(before) && IsBlank(after) && body != []
    ensures LStrip(before + body + after + ClosingFence) == body + after + ClosingFence
  {
    var x := body + after + ClosingFence;
    assert x[0] == body[0];
    assert before + body + after + ClosingFence == before + x;
    LStripAfterBlank(before, x);
  }

  /** On text with no surrounding whitespace, cleaning is the two substitutions alone. */
  lemma CleanFenceOfTrimmed(t: string)
    requires Trimmed(t)
    ensures CleanFence(t) == DropClosing(DropOpening(t))
  {
    StripTrimmedIsIdentity(t);
  }

  /** The fenced text has no surrounding whitespace and opens with the fence. */
  lemma FencedTrimmed(rest: string)
    ensures Trimmed(OpeningFence + rest + ClosingFence)
    ensures OpeningFence + rest + ClosingFence == OpeningFence + (rest + ClosingFence)
  {
    var w := OpeningFence + rest + ClosingFence;
    assert w[0] == '`' && w[|w| - 1] == '`';
  }

  /** With an empty body, what follows the opening fence cleans to nothing. */
  lemma DropClosingAfterEmpty(before: string, body: string, after: string)
    requires body == []
    requires IsBlank(before) && IsBlank(after)
    ensures DropClosing(LStrip(before + body + after + ClosingFence)) == body
  {
    assert before + body == before;
    LStripBeforeEmptyBody(before, after);
    DropClosingOfFenced([], []);
    assert [] + [] + ClosingFence == ClosingFence;
  }

  /** With a non-empty body, what follows the opening fence cleans to the body. */
  lemma DropClosingAfterBody(before: string, body: string, after: string)
    requires Trimmed(body) && body != []
    requires IsBlank(before) && IsBlank(after)
    ensures DropClosing(LStrip(before + body + after + ClosingFence)) == body
  {
    LStripBeforeBody(before, body, after);
    DropClosingOfFenced(body, after);
  }

  /** Once the opening fence is gone, stripping and dropping the closing fence leave the body. */
  lemma DropClosingAfterOpening(before: string, body: string, after: string)
    requires Trimmed(body)
    requires IsBlank(before) && IsBlank(after)
    ensures DropClosing(LStrip(before + body + after + ClosingFence)) == body
  {
    if body == [] {
      DropClosingAfterEmpty(before, body, after);
    } else {
      DropClosingAfterBody(before, body, after);
    }
  }

  /**
   * Round trip: wrapping a trimmed body as "```json", whitespace, the body,
   * whitespace, "```" and cleaning it gives the body back.
   */
  lemma CleanFenceUnwraps(body: string, before: string, after: string)
    requires Trimmed(body)
    requires IsBlank(before) && IsBlank(after)
    ensures CleanFence(OpeningFence + before + body + after + ClosingFence) == body
  {
    var middle := before + body + after;
    var wrapped := OpeningFence + middle + ClosingFence;
    assert OpeningFence + before + body + after + ClosingFence == wrapped;
    FencedTrimmed(middle);
    CleanFenceOfTrimmed(wrapped);
    DropOpeningOfFenced(middle + ClosingFence);
    assert middle + ClosingFence == before + body + after + ClosingFence;
    DropClosingAfterOpening(before, body, after);
  }

  /** Cleaning is idempotent on every reply whose cleaned form carries no wrapper. */
  lemma CleanFenceIdempotentWhenUnwrapped(reply: string)
    requires !StartsWith(CleanFence(reply), OpeningFence)
    requires !EndsWith(CleanFence(reply), ClosingFence)
    ensures CleanFence(CleanFence(reply)) == CleanFence(reply)
  {
    CleanFenceIsStripped(reply);
    CleanFencePassesUnwrapped(CleanFence(reply));
  }

  /** The opening fence and one space before a text that starts with a non-space are removed. */
  lemma DropOpeningBeforeSpace(x: string)
    requires x != [] && !IsSpace(x[0])
    ensures DropOpening(OpeningFence + (" " + x)) == x
  {
    DropOpeningOfFenced(" " + x);
    assert IsBlank(" ");
    LStripAfterBlank(" ", x);
  }

  /** Trimmed text without a closing fence is left alone by the closing substitution. */
  lemma DropClosingUnfenced(x: string)
    requires Trimmed(x) && !EndsWith(x, ClosingFence)
    ensures DropClosing(x) == x
  {
    EndsWithNewlineNotTrimmed(x);
  }

  /** An opening fence alone, before a space and a trimmed text with no closing fence, is removed. */
  lemma CleanSingleFence(x: string)
    requires Trimmed(x) && x != [] && !EndsWith(x, ClosingFence)
    ensures CleanFence(OpeningFence + (" " + x)) == x
  {
    var t := OpeningFence + (" " + x);
    assert t[0] == '`' && t[|t| - 1] == x[|x| - 1];
    CleanFenceOfTrimmed(t);
    DropOpeningBeforeSpace(x);
    DropClosingUnfenced(x);
  }

  /** Two opening fences and one closing fence around a trimmed text lose one of each. */
  lemma CleanDoubleFence(once: string)
    requires Trimmed(once) && once != [] && once[0] == '`'
    ensures CleanFence(OpeningFence + once + ClosingFence) == once
  {
    var twice := OpeningFence + once + ClosingFence;
    FencedTrimmed(once);
    CleanFenceOfTrimmed(twice);
    DropOpeningOfFenced(once + ClosingFence);
    assert (once + ClosingFence)[0] == '`';
    assert LStrip(once + ClosingFence) == once + ClosingFence;
    DropClosingOfFenced(once, []);
    assert once + [] + ClosingFence == once + ClosingFence;
  }

  /**
   * Cleaning is not idempotent in general: one pass removes one wrapper, so a
   * doubly fenced reply such as "```json```json x```" still carries a fence
   * after the first pass ("```json x"), which a second pass removes ("x").
   */
  lemma CleanFenceNotIdempotent(x: string)
    requires Trimmed(x) && x != [] && !EndsWith(x, ClosingFence)
    ensures var once := OpeningFence + (" " + x);
      && CleanFence(OpeningFence + once + ClosingFence) == once
      && CleanFence(CleanFence(OpeningFence + once + ClosingFence)) == x
      && x != once
  {
    var once := OpeningFence + (" " + x);
    assert once[0] == '`' && once[|once| - 1] == x[|x| - 1];
    CleanDoubleFence(once);
    CleanSingleFence(x);
  }
}
