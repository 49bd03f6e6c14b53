/**
 The text side of loading a program image: every line loses its comment (the
 text from the first `#` on), and lines with nothing left are dropped.
 */
module Loader {

  datatype Option<T> = None | Some(value: T)

  /** `line.split("#")[0]`: the text of the line before its first `#`. */
  function StripComment(line: string): (r: string)
    ensures |r| <= |line| && r == line[..|r|]
    ensures '#' !in r
    ensures |r| < |line| ==> line[|r|] == '#'
  {
    if line == [] || line[0] == '#' then []
    else [line[0]] + StripComment(line[1..])
  }

  /** The comment-stripped lines that keep some text, in file order. */
  function Program(lines: seq<string>): (p: seq<string>)
    ensures |p| <= |lines|
    ensures forall i :: 0 <= i < |p| ==> p[i] != [] && '#' !in p[i]
  {
    if lines == [] then []
    else
      var code := StripComment(lines[0]);
      (if code != [] then [code] else []) + Program(lines[1..])
  }

  /** One line contributes its stripped text exactly when that text is not empty. */
  lemma ProgramSingle(line: string)
    ensures Program([line]) == if StripComment(line) == [] then [] else [StripComment(line)]
  {
    assert [line][1..] == [];
  }

  /** The kept lines of two stretches of text are those of each, in order. */
  lemma {:induction false} ProgramAppend(a: seq<string>, b: seq<string>)
    ensures Program(a + b) == Program(a) + Program(b)
  {
    if a != [] {
      assert (a + b)[0] == a[0];
      assert (a + b)[1..] == a[1..] + b;
      ProgramAppend(a[1..], b);
    } else {
      assert a + b == b;
    }
  }

  /**
   The number of leading program lines that the byte parser accepts; the
   parser stands for Python's `int(text, 2)`, `None` for its `ValueError`.
   */
  function ParsedPrefix(program: seq<string>, parse: string -> Option<int>): (k: nat)
    ensures k <= |program|
    ensures forall i :: 0 <= i < k ==> parse(program[i]).Some?
    ensures k < |program| ==> parse(program[k]).None?
  {
    if program == [] || parse(program[0]).None? then 0
    else 1 + ParsedPrefix(program[1..], parse)
  }
}
