/**
 * The part of PHP's `sprintf` the URL templates use: every `%s` in the
 * template is replaced, left to right, by the next argument. An argument
 * is spliced in as it is and never rescanned for `%s`. Too few arguments
 * is an error (`None`); surplus arguments are ignored.
 */
module Sprintf {
  import opened Wrappers

  /** True when `t` holds no conversion directive at all. */
  predicate Plain(t: string)
  {
    forall i :: 0 <= i < |t| ==> t[i] != '%'
  }

  function Format(t: string, args: seq<string>): (r: Option<string>)
    decreases |t|
  {
    if |t| == 0 then Some("")
    else if |t| >= 2 && t[0] == '%' && t[1] == 's' then
      if |args| == 0 then None
      else
        match Format(t[2..], args[1..])
        case None => None
        case Some(rest) => Some(args[0] + rest)
    else
      match Format(t[1..], args)
      case None => None
      case Some(rest) => Some([t[0]] + rest)
  }

  /** A template without directives is copied unchanged, whatever the arguments. */
  lemma {:induction false} FormatPlain(t: string, args: seq<string>)
    requires Plain(t)
    ensures Format(t, args) == Some(t)
  {
    if |t| > 0 {
      assert Plain(t[1..]) by {
        forall i | 0 <= i < |t[1..]| ensures t[1..][i] != '%' {
          assert t[1..][i] == t[i + 1];
        }
      }
      FormatPlain(t[1..], args);
      assert [t[0]] + t[1..] == t;
    }
  }

  /**
   * One directive after a plain prefix: the prefix is copied, the first
   * argument is spliced in exactly once, and formatting resumes on the rest
   * of the template with the remaining arguments.
   */
  lemma {:induction false} FormatSplice(a: string, b: string, args: seq<string>)
    requires Plain(a)
    ensures Format(a + "%s" + b, args) ==
      if |args| == 0 then None
      else match Format(b, args[1..])
        case None => None
        case Some(rest) => Some(a + args[0] + rest)
  {
    var t := a + "%s" + b;
    if |a| == 0 {
      assert t == "%s" + b;
      assert t[0] == '%' && t[1] == 's' && t[2..] == b;
      if |args| > 0 {
        match Format(b, args[1..])
        case None =>
        case Some(rest) => assert a + args[0] + rest == args[0] + rest;
      }
    } else {
      assert t[0] == a[0];
      assert t[1..] == a[1..] + "%s" + b;
      assert Plain(a[1..]) by {
        forall i | 0 <= i < |a[1..]| ensures a[1..][i] != '%' {
          assert a[1..][i] == a[i + 1];
        }
      }
      FormatSplice(a[1..], b, args);
      assert a == [a[0]] + a[1..];
      if |args| > 0 {
        match Format(b, args[1..])
        case None =>
        case Some(rest) =>
          assert [a[0]] + (a[1..] + args[0] + rest) == a + args[0] + rest;
      }
    }
  }

  /** `sprintf(a.'%s'.b, x)` with plain `a` and `b` is `a.x.b`. */
  lemma FormatOne(a: string, b: string, x: string)
    requires Plain(a) && Plain(b)
    ensures Format(a + "%s" + b, [x]) == Some(a + x + b)
  {
    FormatSplice(a, b, [x]);
    FormatPlain(b, [x][1..]);
  }

  /** `sprintf(a.'%s'.b.'%s'.c, x, y)` with plain pieces is `a.x.b.y.c`: the arguments land in order. */
  lemma FormatTwo(a: string, b: string, c: string, x: string, y: string)
    requires Plain(a) && Plain(b) && Plain(c)
    ensures Format(a + "%s" + b + "%s" + c, [x, y]) == Some(a + x + b + y + c)
  {
    assert a + "%s" + b + "%s" + c == a + "%s" + (b + "%s" + c);
    FormatSplice(a, b + "%s" + c, [x, y]);
    assert [x, y][1..] == [y];
    FormatOne(b, c, y);
    assert a + x + (b + y + c) == a + x + b + y + c;
  }
}
