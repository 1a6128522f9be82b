/**
 * Python's `str.format(**kwargs)` restricted to what the prompt templates use:
 * replacement fields `{name}` whose name is an identifier looked up among the
 * keyword arguments, and the escapes `{{` and `}}` for literal braces.
 */
module PyFormat {
  import opened Wrappers

  predicate IsIdentStart(c: char)
  {
    'a' <= c <= 'z' || 'A' <= c <= 'Z' || c == '_'
  }

  predicate IsIdentChar(c: char)
  {
    IsIdentStart(c) || '0' <= c <= '9'
  }

  /** A keyword-argument name: a Python identifier made of ASCII letters, digits and `_`. */
  predicate IsIdent(name: string)
  {
    |name| > 0 && IsIdentStart(name[0]) && forall i :: 0 <= i < |name| ==> IsIdentChar(name[i])
  }

  /** Text in which `format` has nothing to substitute or unescape. */
  predicate IsPlain(s: string)
  {
    forall i :: 0 <= i < |s| ==> s[i] != '{' && s[i] != '}'
  }

  /** First index at or after `from` that holds `}`. */
  function CloseBrace(t: string, from: nat): (r: Option<nat>)
    ensures r.Some? ==> from <= r.value < |t| && t[r.value] == '}'
                        && forall j :: from <= j < r.value ==> t[j] != '}'
    ensures r.None? ==> forall j :: from <= j < |t| ==> t[j] != '}'
    decreases |t| - from
  {
    if from >= |t| then None
    else if t[from] == '}' then Some(from)
    else CloseBrace(t, from + 1)
  }

  function Prepend(x: string, o: Option<string>): Option<string>
  {
    match o
    case Some(y) => Some(x + y)
    case None => None
  }

  /**
   * `template.format(**args)`. `None` stands for the exception Python raises:
   * an unmatched `{` or `}`, a field name that is not an identifier (an
   * empty or numeric name asks for a positional argument, which the callers
   * never pass), or a name missing from `args` (`KeyError`).
   */
  function Format(template: string, args: map<string, string>): Option<string>
    decreases |template|
  {
    if template == [] then Some([])
    else if template[0] == '{' then
      if |template| >= 2 && template[1] == '{' then Prepend("{", Format(template[2..], args))
      else match CloseBrace(template, 1)
        case None => None
        case Some(k) =>
          var name := template[1..k];
          if IsIdent(name) && name in args then Prepend(args[name], Format(template[k + 1..], args))
          else None
    else if template[0] == '}' then
      if |template| >= 2 && template[1] == '}' then Prepend("}", Format(template[2..], args))
      else None
    else Prepend(template[..1], Format(template[1..], args))
  }

  /** Text without braces formats to itself. */
  lemma {:induction false} FormatPlain(s: string, args: map<string, string>)
    requires IsPlain(s)
    ensures Format(s, args) == Some(s)
  {
    if s != [] {
      FormatPlain(s[1..], args);
      assert s[..1] + s[1..] == s;
    }
  }

  /**
   * A replacement field is replaced by its argument, and by nothing else; a
   * name missing from the arguments makes the whole call fail (`KeyError`).
   */
  lemma FormatFieldThen(name: string, rest: string, args: map<string, string>)
    requires IsIdent(name)
    ensures Format("{" + name + "}" + rest, args)
            == if name in args then Prepend(args[name], Format(rest, args)) else None
  {
    var t := "{" + name + "}" + rest;
    assert forall j :: 1 <= j < |name| + 1 ==> t[j] == name[j - 1] && IsIdentChar(name[j - 1]);
    assert t[|name| + 1] == '}';
    assert CloseBrace(t, 1) == Some(|name| + 1);
    assert t[1..|name| + 1] == name;
    assert t[|name| + 2..] == rest;
  }

  /** Each escape formats to one literal brace, and the rest is formatted after it. */
  lemma FormatEscapeThen(rest: string, args: map<string, string>)
    ensures Format("{{" + rest, args) == Prepend("{", Format(rest, args))
    ensures Format("}}" + rest, args) == Prepend("}", Format(rest, args))
  {
    assert ("{{" + rest)[2..] == rest;
    assert ("}}" + rest)[2..] == rest;
  }

  /**
   * Formatting is compositional: a prefix that formats on its own is formatted
   * the same way inside a longer template, and the rest is formatted after it.
   */
  lemma {:induction false} FormatAppend(a: string, c: string, args: map<string, string>)
    requires Format(a, args).Some?
    ensures Format(a + c, args) == Prepend(Format(a, args).value, Format(c, args))
    decreases |a|
  {
    var t := a + c;
    if a == [] {
      assert t == c;
      if Format(c, args).Some? { assert [] + Format(c, args).value == Format(c, args).value; }
    } else {
      var skip, lit := FirstToken(a, c, args);
      FormatAppend(a[skip..], c, args);
      var v := Format(a[skip..], args).value;
      if Format(c, args).Some? {
        assert lit + (v + Format(c, args).value) == (lit + v) + Format(c, args).value;
      }
    }
  }

  /**
   * The first token of a template that formats: it spans `skip` characters,
   * formats to `lit`, and is the same token when more text follows.
   */
  lemma FirstToken(a: string, c: string, args: map<string, string>) returns (skip: nat, lit: string)
    requires a != [] && Format(a, args).Some?
    ensures 0 < skip <= |a|
    ensures Format(a, args) == Prepend(lit, Format(a[skip..], args))
    ensures Format(a + c, args) == Prepend(lit, Format(a[skip..] + c, args))
  {
    var t := a + c;
    assert t[0] == a[0];
    if a[0] == '{' {
      if |a| >= 2 && a[1] == '{' {
        skip, lit := 2, "{";
        assert t[1] == '{' && t[2..] == a[2..] + c;
        assert Format(t, args) == Prepend(lit, Format(a[skip..] + c, args));
      } else {
        var k := CloseBrace(a, 1).value;
        skip, lit := k + 1, args[a[1..k]];
        assert CloseBrace(t, 1) == Some(k) by {
          assert forall j :: 1 <= j < |a| ==> t[j] == a[j];
        }
        assert t[1..k] == a[1..k] && t[k + 1..] == a[k + 1..] + c;
        assert Format(t, args) == Prepend(lit, Format(a[skip..] + c, args));
      }
    } else if a[0] == '}' {
      skip, lit := 2, "}";
      assert t[1] == '}' && t[2..] == a[2..] + c;
      assert Format(t, args) == Prepend(lit, Format(a[skip..] + c, args));
    } else {
      skip, lit := 1, a[..1];
      assert t[..1] == a[..1] && t[1..] == a[1..] + c;
      assert Format(t, args) == Prepend(lit, Format(a[skip..] + c, args));
    }
  }

  /** Two templates that format on their own format, concatenated, to the concatenation. */
  lemma FormatConcat(a: string, c: string, args: map<string, string>, x: string, y: string)
    requires Format(a, args) == Some(x) && Format(c, args) == Some(y)
    ensures Format(a + c, args) == Some(x + y)
  {
    FormatAppend(a, c, args);
  }

  /** Literal template text: it holds no brace, so formatting leaves it as it is. */
  type PlainText = s: string | IsPlain(s) witness ""

  /** The name of a replacement field. */
  type FieldName = s: string | IsIdent(s) witness "_"

  /** One token of a template: literal text, a replacement field `{name}`, or an escaped brace. */
  datatype Piece = Lit(text: PlainText) | Field(name: FieldName) | LBrace | RBrace

  /** How a token is written in the template. */
  function PieceSource(p: Piece): string
  {
    match p
    case Lit(s) => s
    case Field(n) => "{" + n + "}"
    case LBrace => "{{"
    case RBrace => "}}"
  }

  /** The template a sequence of tokens spells. */
  function Source(ps: seq<Piece>): string
  {
    if ps == [] then [] else PieceSource(ps[0]) + Source(ps[1..])
  }

  /** Every replacement field of `ps` has an argument. */
  predicate Bound(ps: seq<Piece>, args: map<string, string>)
  {
    forall i :: 0 <= i < |ps| && ps[i].Field? ==> ps[i].name in args
  }

  /** What one token formats to. */
  function PieceRender(p: Piece, args: map<string, string>): string
    requires p.Field? ==> p.name in args
  {
    match p
    case Lit(s) => s
    case Field(n) => args[n]
    case LBrace => "{"
    case RBrace => "}"
  }

  /** Substitution done directly on the tokens: fields by their arguments, escapes by one brace. */
  function Render(ps: seq<Piece>, args: map<string, string>): string
    requires Bound(ps, args)
  {
    if ps == [] then [] else PieceRender(ps[0], args) + Render(ps[1..], args)
  }

  /**
   * Formatting a template spelled by tokens succeeds exactly when every field
   * has an argument, and then gives the direct substitution.
   */
  lemma {:induction false} FormatPieces(ps: seq<Piece>, args: map<string, string>)
    ensures Format(Source(ps), args) == if Bound(ps, args) then Some(Render(ps, args)) else None
  {
    if ps == [] {
    } else {
      var rest := Source(ps[1..]);
      FormatPieces(ps[1..], args);
      assert Bound(ps, args) <==> (ps[0].Field? ==> ps[0].name in args) && Bound(ps[1..], args) by {
        if (ps[0].Field? ==> ps[0].name in args) && Bound(ps[1..], args) {
          forall i | 1 <= i < |ps| && ps[i].Field? ensures ps[i].name in args {
            assert ps[i] == ps[1..][i - 1];
          }
        }
      }
      match ps[0]
      case Lit(s) =>
        FormatPlain(s, args);
        FormatAppend(s, rest, args);
      case Field(n) =>
        FormatFieldThen(n, rest, args);
      case LBrace =>
        FormatEscapeThen(rest, args);
      case RBrace =>
        FormatEscapeThen(rest, args);
    }
  }

  /** Tokens render piecewise: a concatenation renders to the concatenation of the renderings. */
  lemma {:induction false} RenderConcat(a: seq<Piece>, b: seq<Piece>, args: map<string, string>)
    ensures Bound(a + b, args) <==> Bound(a, args) && Bound(b, args)
    ensures Bound(a + b, args) ==> Render(a + b, args) == Render(a, args) + Render(b, args)
  {
    if a != [] {
      assert (a + b)[1..] == a[1..] + b;
      RenderConcat(a[1..], b, args);
      assert Bound(a, args) <==> (a[0].Field? ==> a[0].name in args) && Bound(a[1..], args) by {
        if (a[0].Field? ==> a[0].name in args) && Bound(a[1..], args) {
          forall i | 1 <= i < |a| && a[i].Field? ensures a[i].name in args {
            assert a[i] == a[1..][i - 1];
          }
        }
      }
      assert Bound(a + b, args) <==> (a[0].Field? ==> a[0].name in args) && Bound(a[1..] + b, args) by {
        forall i | 1 <= i < |a + b| ensures (a + b)[i] == (a[1..] + b)[i - 1] { }
        assert (a + b)[0] == a[0];
      }
    } else {
      assert a + b == b;
    }
  }

  /** Up to six runs of tokens render run by run. */
  lemma RenderLines(a: seq<Piece>, b: seq<Piece>, c: seq<Piece>, d: seq<Piece>, e: seq<Piece>, f: seq<Piece>,
                    args: map<string, string>)
    requires Bound(a, args) && Bound(b, args) && Bound(c, args) && Bound(d, args) && Bound(e, args) && Bound(f, args)
    ensures Bound(a + b + c + d, args)
            && Render(a + b + c + d, args) == Render(a, args) + Render(b, args) + Render(c, args) + Render(d, args)
    ensures Bound(a + b + c + d + e, args)
            && Render(a + b + c + d + e, args)
               == Render(a, args) + Render(b, args) + Render(c, args) + Render(d, args) + Render(e, args)
    ensures Bound(a + b + c + d + e + f, args)
            && Render(a + b + c + d + e + f, args)
               == Render(a, args) + Render(b, args) + Render(c, args) + Render(d, args) + Render(e, args) + Render(f, args)
  {
    RenderConcat(a, b, args);
    RenderConcat(a + b, c, args);
    RenderConcat(a + b + c, d, args);
    RenderConcat(a + b + c + d, e, args);
    RenderConcat(a + b + c + d + e, f, args);
  }

  /** Short token sequences render token by token. */
  lemma RenderShort(p: Piece, q: Piece, r: Piece, s: Piece, args: map<string, string>)
    requires (p.Field? ==> p.name in args) && (q.Field? ==> q.name in args)
    requires (r.Field? ==> r.name in args) && (s.Field? ==> s.name in args)
    ensures Render([p], args) == PieceRender(p, args)
    ensures Render([p, q], args) == PieceRender(p, args) + PieceRender(q, args)
    ensures Render([p, q, r], args) == PieceRender(p, args) + PieceRender(q, args) + PieceRender(r, args)
    ensures Render([p, q, r, s], args)
            == PieceRender(p, args) + PieceRender(q, args) + PieceRender(r, args) + PieceRender(s, args)
  {
    var a, b, c, d := PieceRender(p, args), PieceRender(q, args), PieceRender(r, args), PieceRender(s, args);
    assert Render([s], args) == d by { assert [s][1..] == []; }
    assert Render([r], args) == c by { assert [r][1..] == []; }
    assert Render([p], args) == a by { assert [p][1..] == []; }
    assert Render([r, s], args) == c + d by { assert [r, s][1..] == [s]; }
    assert Render([q, r], args) == b + c by { assert [q, r][1..] == [r]; }
    assert Render([p, q], args) == a + b by { assert [p, q][1..] == [q]; }
    assert Render([q, r, s], args) == b + (c + d) by { assert [q, r, s][1..] == [r, s]; }
    assert Render([p, q, r], args) == a + (b + c) by { assert [p, q, r][1..] == [q, r]; }
    assert Render([p, q, r, s], args) == a + (b + (c + d)) by { assert [p, q, r, s][1..] == [q, r, s]; }
    assert a + (b + c) == a + b + c;
    assert a + (b + (c + d)) == a + b + c + d;
  }

  /** Two runs of three tokens render token by token. */
  lemma RenderSix(p: Piece, q: Piece, r: Piece, u: Piece, v: Piece, w: Piece, args: map<string, string>)
    requires (p.Field? ==> p.name in args) && (q.Field? ==> q.name in args) && (r.Field? ==> r.name in args)
    requires (u.Field? ==> u.name in args) && (v.Field? ==> v.name in args) && (w.Field? ==> w.name in args)
    ensures Bound([p, q, r] + [u, v, w], args)
    ensures Render([p, q, r] + [u, v, w], args)
            == PieceRender(p, args) + PieceRender(q, args) + PieceRender(r, args)
               + PieceRender(u, args) + PieceRender(v, args) + PieceRender(w, args)
  {
    RenderShort(p, q, r, r, args);
    RenderShort(u, v, w, w, args);
    RenderConcat([p, q, r], [u, v, w], args);
    var a, b, c := PieceRender(p, args), PieceRender(q, args), PieceRender(r, args);
    var d, e, f := PieceRender(u, args), PieceRender(v, args), PieceRender(w, args);
    Regroup(a, b, c, d, e, f);
  }

  lemma Regroup<T>(a: seq<T>, b: seq<T>, c: seq<T>, d: seq<T>, e: seq<T>, f: seq<T>)
    ensures (a + b + c) + (d + e + f) == a + b + c + d + e + f
  {
    assert (a + b + c) + (d + e + f) == ((a + b + c) + (d + e)) + f;
  }
}
