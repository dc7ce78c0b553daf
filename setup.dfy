/**
 * `get_requirements` (setup.py): the requirement lines of a file, each
 * stripped, blank lines dropped, and the first editable-install flag removed.
 * The file is given as the list of its lines, as `readlines()` returns them.
 */
module Setup {
  import Strings
  import Seqs

  /** The editable-install line `pip install -e .` writes into requirements files. */
  const EditableFlag: string := "-e ."

  /** A requirement entry: non-empty, with no whitespace around it. */
  predicate IsEntry(s: string) {
    s != "" && Strings.Strip(s) == s
  }

  /** `[req.strip() for req in lines if req.strip()]`. */
  function Cleaned(lines: seq<string>): (r: seq<string>)
    ensures |r| <= |lines|
    decreases |lines|
  {
    if lines == [] then []
    else
      var s := Strings.Strip(lines[0]);
      var rest := Cleaned(lines[1..]);
      if s == "" then rest else [s] + rest
  }

  /** Every kept entry is non-empty and already stripped. */
  lemma {:induction false} CleanedEntries(lines: seq<string>)
    ensures forall i :: 0 <= i < |Cleaned(lines)| ==> IsEntry(Cleaned(lines)[i])
    decreases |lines|
  {
    if lines != [] {
      CleanedEntries(lines[1..]);
      Strings.StripIdempotent(lines[0]);
    }
  }

  /** The comprehension works line by line: the lines kept keep their relative order. */
  lemma {:induction false} CleanedAppend(a: seq<string>, b: seq<string>)
    ensures Cleaned(a + b) == Cleaned(a) + Cleaned(b)
    decreases |a|
  {
    if a == [] {
      assert a + b == b;
    } else {
      var ab := a + b;
      assert ab[0] == a[0] && ab[1..] == a[1..] + b;
      CleanedAppend(a[1..], b);
      var s := Strings.Strip(a[0]);
      assert Cleaned(ab) == (if s == "" then [] else [s]) + Cleaned(ab[1..]);
      assert Cleaned(a) == (if s == "" then [] else [s]) + Cleaned(a[1..]);
      Seqs.ConcatAssoc(if s == "" then [] else [s], Cleaned(a[1..]), Cleaned(b));
    }
  }

  /** One line contributes its stripped text, or nothing when it is blank. */
  lemma CleanedSingle(line: string)
    ensures Cleaned([line]) == if Strings.Strip(line) == "" then [] else [Strings.Strip(line)]
  {
    assert [line][1..] == [];
  }

  /** Every entry of `s` with its first `x` removed was an entry of `s`. */
  lemma RemoveFirstEntries(s: seq<string>, x: string)
    requires x in s
    ensures forall i :: 0 <= i < |Seqs.RemoveFirst(s, x)| ==> Seqs.RemoveFirst(s, x)[i] in s
  {
    var r := Seqs.RemoveFirst(s, x);
    forall i | 0 <= i < |r| ensures r[i] in s {
      assert r[i] in multiset(r);
    }
  }

  /**
   * `if "-e ." in requirements: requirements.remove("-e .")`: deletes the
   * first occurrence of the flag and keeps every other entry, later copies
   * of the flag included, in order.
   */
  function WithoutEditable(c: seq<string>): (r: seq<string>)
    ensures EditableFlag !in c ==> r == c
    ensures EditableFlag in c ==>
      var k := Seqs.IndexOf(c, EditableFlag);
      && |r| == |c| - 1
      && multiset(r) == multiset(c) - multiset{EditableFlag}
      && r == c[..k] + c[k + 1..]
      && EditableFlag !in c[..k]
    ensures forall i :: 0 <= i < |r| ==> r[i] in c
  {
    if EditableFlag in c then
      RemoveFirstEntries(c, EditableFlag);
      Seqs.RemoveFirst(c, EditableFlag)
    else c
  }

  /** Removing the flag once more changes nothing unless the file listed it twice. */
  lemma WithoutEditableOnce(c: seq<string>)
    requires multiset(c)[EditableFlag] <= 1
    ensures EditableFlag !in WithoutEditable(c)
    ensures WithoutEditable(WithoutEditable(c)) == WithoutEditable(c)
  {
    if EditableFlag in c {
      assert multiset(WithoutEditable(c))[EditableFlag] == 0;
    }
  }

  /**
   * `get_requirements(filepath)` on the file's lines: the cleaned lines with
   * the first editable-install flag removed; every requirement it returns is
   * a non-empty, stripped line of the file.
   */
  method GetRequirements(lines: seq<string>) returns (requirements: seq<string>)
    ensures requirements == WithoutEditable(Cleaned(lines))
    ensures forall i :: 0 <= i < |requirements| ==> IsEntry(requirements[i])
  {
    var cleaned := Cleaned(lines);
    CleanedEntries(lines);
    requirements := WithoutEditable(cleaned);
  }
}
