/** PHP's output-control stack (ob_start, echo, ob_get_clean). It is one
    process-wide stack in PHP; the model makes it an explicit object that is
    handed to every operation that prints or captures output. */
module OutputBuffering {

  /** `stack` holds the open buffers, innermost last; `stdout` is what was
      echoed while no buffer was open. */
  datatype Buffers = Buffers(stack: seq<string>, stdout: string)

  const NoBuffers := Buffers([], "")

  /** ob_start(): open a new, empty buffer on top of the others. */
  function Push(b: Buffers): (r: Buffers)
    ensures |r.stack| == |b.stack| + 1 && r.stack[..|b.stack|] == b.stack
    ensures r.stack[|b.stack|] == "" && r.stdout == b.stdout
  {
    b.(stack := b.stack + [""])
  }

  /** echo: append to the innermost buffer, or to the real output when no
      buffer is open; nothing else changes. */
  function Write(b: Buffers, s: string): (r: Buffers)
    ensures |r.stack| == |b.stack|
    ensures forall k :: 0 <= k < |b.stack| - 1 ==> r.stack[k] == b.stack[k]
    ensures b.stack != [] ==> r.stack[|b.stack| - 1] == b.stack[|b.stack| - 1] + s && r.stdout == b.stdout
    ensures b.stack == [] ==> r.stdout == b.stdout + s
  {
    if b.stack == [] then b.(stdout := b.stdout + s)
    else b.(stack := b.stack[..|b.stack| - 1] + [b.stack[|b.stack| - 1] + s])
  }

  /** ob_get_clean(): close the innermost buffer and return its text. With no
      buffer open PHP returns false, which concatenates as "". */
  function Pop(b: Buffers): (r: (string, Buffers))
    ensures b.stack == [] ==> r == ("", b)
    ensures b.stack != [] ==> r.1.stack + [r.0] == b.stack && r.1.stdout == b.stdout
  {
    if b.stack == [] then ("", b)
    else (b.stack[|b.stack| - 1], b.(stack := b.stack[..|b.stack| - 1]))
  }

  /** A buffer opened, written and closed gives back exactly what was written,
      and leaves every other buffer and the real output as they were. */
  lemma PushWritePop(b: Buffers, s: string)
    ensures Pop(Write(Push(b), s)) == (s, b)
  {
    var p := Push(b);
    assert p.stack[..|p.stack| - 1] == b.stack;
    assert p.stack[|p.stack| - 1] + s == s;
    var w := Write(p, s);
    assert w.stack == b.stack + [s];
    assert w.stack[..|w.stack| - 1] == b.stack;
  }

  /** Two echoes are one echo of the concatenation. */
  lemma WriteWrite(b: Buffers, s: string, t: string)
    ensures Write(Write(b, s), t) == Write(b, s + t)
  {
    if b.stack != [] {
      var n := |b.stack|;
      var b1 := Write(b, s);
      assert b1.stack[..n - 1] == b.stack[..n - 1];
      assert b1.stack[n - 1] == b.stack[n - 1] + s;
      assert b.stack[n - 1] + s + t == b.stack[n - 1] + (s + t);
    } else {
      assert b.stdout + s + t == b.stdout + (s + t);
    }
  }

  /** Echoing nothing changes nothing. */
  lemma WriteEmpty(b: Buffers)
    ensures Write(b, "") == b
  {
    if b.stack != [] {
      var n := |b.stack|;
      assert b.stack[n - 1] + "" == b.stack[n - 1];
      assert b.stack[..n - 1] + [b.stack[n - 1]] == b.stack;
    } else {
      assert b.stdout + "" == b.stdout;
    }
  }

  /** The output-control stack as a mutable object. */
  class OutputBuffer {
    var stack: seq<string>
    var stdout: string

    function Contents(): Buffers
      reads this
    {
      Buffers(stack, stdout)
    }

    constructor ()
      ensures Contents() == NoBuffers
    {
      stack := [];
      stdout := "";
    }

    method Start()
      modifies this
      ensures Contents() == Push(old(Contents()))
    {
      stack := stack + [""];
    }

    method Echo(s: string)
      modifies this
      ensures Contents() == Write(old(Contents()), s)
    {
      if stack == [] {
        stdout := stdout + s;
      } else {
        stack := stack[..|stack| - 1] + [stack[|stack| - 1] + s];
      }
    }

    method GetClean() returns (text: string)
      modifies this
      ensures (text, Contents()) == Pop(old(Contents()))
    {
      if stack == [] {
        text := "";
      } else {
        text := stack[|stack| - 1];
        stack := stack[..|stack| - 1];
      }
    }
  }
}
