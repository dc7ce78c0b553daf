/**
 * The project's exception wrapper: `error_message_detail` and `CustomException`
 * (core/exceptions.py). The traceback lookup is replaced by the file name and
 * line number it would find, passed in by the code that catches.
 */
module Exceptions {
  import Strings

  /** A raised Python exception, as far as the core observes it. */
  datatype Exc =
    /** A built-in or library exception such as `KeyError`; `str(e)` is `text`. */
    | Builtin(kind: string, text: string)
    /** A `CustomException`: `args[0]` is `arg`, the `error_message` attribute is `detail`. */
    | Custom(arg: string, detail: string)

  /** A failed lookup of the string `key` in a dict or a DataFrame: `str(KeyError(key))` quotes the key. */
  function KeyError(key: string): Exc {
    Builtin("KeyError", "'" + key + "'")
  }

  /** `str(e)`. `CustomException.__str__` returns the detailed message, not the argument. */
  function Str(e: Exc): string {
    match e
    case Builtin(_, text) => text
    case Custom(_, detail) => detail
  }

  /** The text placed in front of the wrapped error's message. */
  function Location(file: string, line: nat): string {
    "Error in script [" + file + "] at line [" + Strings.NatToDecimal(line) + "]: "
  }

  /** `error_message_detail(error, sys)` for an error caught at `file`, `line`. */
  function ErrorMessageDetail(error: Exc, file: string, line: nat): (r: string)
    ensures r == Location(file, line) + Str(error)
    ensures |r| > |Str(error)| && r[|r| - |Str(error)|..] == Str(error)
  {
    var r := Location(file, line) + Str(error);
    assert r[|r| - |Str(error)|..] == Str(error);
    r
  }

  /**
   * The detailed message identifies the line and the original message: two
   * errors caught in the same file give the same detail only when they were
   * caught at the same line and print the same.
   */
  lemma DetailDeterminesLineAndError(e1: Exc, e2: Exc, file: string, l1: nat, l2: nat)
    requires ErrorMessageDetail(e1, file, l1) == ErrorMessageDetail(e2, file, l2)
    ensures l1 == l2 && Str(e1) == Str(e2)
  {
    var p := "Error in script [" + file + "] at line [";
    var t1 := DetailSplit(e1, file, l1);
    var t2 := DetailSplit(e2, file, l2);
    assert (p + t1)[|p|..] == t1 && (p + t2)[|p|..] == t2;
    DigitsThenBracket(Strings.NatToDecimal(l1), Strings.NatToDecimal(l2), Str(e1), Str(e2));
    Strings.NatToDecimalInjective(l1, l2);
  }

  lemma DetailSplit(e: Exc, file: string, l: nat) returns (t: string)
    ensures t == Strings.NatToDecimal(l) + "]: " + Str(e)
    ensures ErrorMessageDetail(e, file, l) == ("Error in script [" + file + "] at line [") + t
  {
    t := Strings.NatToDecimal(l) + "]: " + Str(e);
  }

  /** A run of digits followed by "]: " is delimited by the bracket. */
  lemma DigitsThenBracket(d1: string, d2: string, s1: string, s2: string)
    requires forall k :: 0 <= k < |d1| ==> Strings.IsDigit(d1[k])
    requires forall k :: 0 <= k < |d2| ==> Strings.IsDigit(d2[k])
    requires d1 + "]: " + s1 == d2 + "]: " + s2
    ensures d1 == d2 && s1 == s2
  {
    var t1, t2 := d1 + "]: " + s1, d2 + "]: " + s2;
    forall k | 0 <= k < |d1| ensures t1[k] == d1[k] { }
    forall k | 0 <= k < |d2| ensures t2[k] == d2[k] { }
    assert t1[|d1|] == ']' && t2[|d2|] == ']';
    assert |d1| == |d2|;
    assert d1 == t1[..|d1|] && d2 == t2[..|d2|];
    assert s1 == t1[|d1| + 3..] && s2 == t2[|d2| + 3..];
  }

  /**
   * `CustomException(error, sys)` raised from `file`, `line`: its argument is
   * `str(error)` and its `str()` is the detailed message.
   */
  function Wrap(error: Exc, file: string, line: nat): (r: Exc)
    ensures r.Custom? && r.arg == Str(error)
    ensures Str(r) == ErrorMessageDetail(error, file, line)
  {
    Custom(Str(error), ErrorMessageDetail(error, file, line))
  }

  /** Wrapping keeps the wrapped message as the tail of the new one. */
  lemma WrapEndsWithInner(error: Exc, file: string, line: nat)
    ensures var s := Str(Wrap(error, file, line));
            |s| > |Str(error)| && s[|s| - |Str(error)|..] == Str(error)
  {
  }

  /** An error re-raised through `frames` (innermost catch first), wrapped once per catch. */
  function WrapChain(error: Exc, frames: seq<(string, nat)>): Exc {
    if frames == [] then error
    else
      var last := frames[|frames| - 1];
      Wrap(WrapChain(error, frames[..|frames| - 1]), last.0, last.1)
  }

  /** The prefixes the catches in `frames` add, outermost first. */
  function Prefixes(frames: seq<(string, nat)>): string {
    if frames == [] then ""
    else
      var last := frames[|frames| - 1];
      Location(last.0, last.1) + Prefixes(frames[..|frames| - 1])
  }

  /**
   * Nested wraps accumulate: the final message is every catch site's prefix,
   * outermost first, followed by the original error's message.
   */
  lemma {:induction false} NestedWrapMessage(error: Exc, frames: seq<(string, nat)>)
    ensures Str(WrapChain(error, frames)) == Prefixes(frames) + Str(error)
  {
    if frames != [] {
      var init, last := frames[..|frames| - 1], frames[|frames| - 1];
      NestedWrapMessage(error, init);
      calc {
        Str(WrapChain(error, frames));
        ErrorMessageDetail(WrapChain(error, init), last.0, last.1);
        Location(last.0, last.1) + (Prefixes(init) + Str(error));
        (Location(last.0, last.1) + Prefixes(init)) + Str(error);
      }
    }
  }
}
