/**
 * `System.Text.StringBuilder` as the text builders use it: only whole lines are appended
 * (`AppendLine`), so its contents are kept as the sequence of lines written so far.
 */
module StringBuilders {

  class StringBuilder {
    /** The lines appended so far, each without its terminating newline. */
    var lines: seq<string>

    /** `new StringBuilder()` */
    constructor ()
      ensures lines == []
    {
      lines := [];
    }

    /** `AppendLine(s)`; `AppendLine()` is `AppendLine("")`. */
    method AppendLine(s: string)
      modifies this
      ensures lines == old(lines) + [s]
    {
      lines := lines + [s];
    }
  }

  // A run of `AppendLine` calls and of block writers leaves, after what was there, the lines
  // and blocks in call order; the lemmas below state this for the run lengths the writers use.

  lemma Lines2(before: seq<string>, a: string, b: string)
    ensures before + [a] + [b] == before + [a, b]
  {
  }

  lemma Lines3(before: seq<string>, a: string, b: string, c: string)
    ensures before + [a] + [b] + [c] == before + [a, b, c]
  {
  }

  lemma Lines5(before: seq<string>, a: string, b: string, c: string, d: string, e: string)
    ensures before + [a] + [b] + [c] + [d] + [e] == before + [a, b, c, d, e]
  {
  }

  lemma Lines6(before: seq<string>, a: string, b: string, c: string, d: string, e: string, f: string)
    ensures before + [a] + [b] + [c] + [d] + [e] + [f] == before + [a, b, c, d, e, f]
  {
  }

  lemma Lines9(before: seq<string>, a: string, b: string, c: string, d: string, e: string,
               f: string, g: string, h: string, i: string)
    ensures before + [a] + [b] + [c] + [d] + [e] + [f] + [g] + [h] + [i] == before + [a, b, c, d, e, f, g, h, i]
  {
  }

  lemma Appended2(before: seq<string>, a: seq<string>, b: seq<string>)
    ensures before + a + b == before + (a + b)
  {
  }

  lemma Appended3(before: seq<string>, a: seq<string>, b: seq<string>, c: seq<string>)
    ensures before + a + b + c == before + (a + b + c)
  {
  }

  lemma Appended4(before: seq<string>, a: seq<string>, b: seq<string>, c: seq<string>, d: seq<string>)
    ensures before + a + b + c + d == before + (a + b + c + d)
  {
  }

  lemma Appended5(before: seq<string>, a: seq<string>, b: seq<string>, c: seq<string>,
                  d: seq<string>, e: seq<string>)
    ensures before + a + b + c + d + e == before + (a + b + c + d + e)
  {
  }

  lemma Appended6(before: seq<string>, a: seq<string>, b: seq<string>, c: seq<string>,
                  d: seq<string>, e: seq<string>, f: seq<string>)
    ensures before + a + b + c + d + e + f == before + (a + b + c + d + e + f)
  {
  }

  /** The lines of a fresh builder are exactly what was appended to it. */
  lemma NothingBefore(lines: seq<string>)
    ensures [] + lines == lines
  {
  }
}
