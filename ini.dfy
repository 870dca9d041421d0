/**
 * How Python's `configparser`, as both client scripts create it
 * (`ConfigParser()`, so with `BasicInterpolation`), hands back a value of
 * client.ini. Reading the file strips the white space around each value;
 * looking a value up then substitutes it: "%%" stands for "%", "%(name)s"
 * for the value of `name` in the same section or DEFAULT, and any other
 * "%" raises an `InterpolationError`. References nest at most ten deep.
 */
module IniFile {
  import opened Common
  import opened Text

  /** `configparser.MAX_INTERPOLATION_DEPTH`. */
  const MaxInterpolationDepth := 10

  /** The value stored for a line "key = text": the text without its surrounding white space. */
  function StoredValue(text: string): (v: string)
    ensures |v| <= |text|
    ensures exists i :: InfixAt(text, v, i)
  {
    StripInfix(text);
    Strip(text)
  }

  /** The position of the first ')' in `s`, or `|s|` when there is none. */
  function ReferenceEnd(s: string): (j: nat)
    ensures j <= |s| && (j < |s| ==> s[j] == ')')
    ensures forall k :: 0 <= k < j ==> s[k] != ')'
  {
    if s == [] || s[0] == ')' then 0 else 1 + ReferenceEnd(s[1..])
  }

  /** `a` put in front of a substitution that succeeded. */
  function Prepend(a: string, r: Option<string>): (out: Option<string>)
    ensures out.Some? <==> r.Some?
    ensures out.Some? ==> out.value == a + r.value
  {
    match r
    case None => None
    case Some(t) => Some(a + t)
  }

  /**
   * `BasicInterpolation._interpolate_some` on the text still to read, with
   * the section's values `vars` at nesting `depth`; None where it raises.
   */
  function Interpolate(rest: string, vars: map<string, string>, depth: int): (r: Option<string>)
    decreases MaxInterpolationDepth + 1 - depth, |rest|, 1
  {
    if depth > MaxInterpolationDepth then None
    else if rest == [] then Some([])
    else if rest[0] != '%' then Prepend([rest[0]], Interpolate(rest[1..], vars, depth))
    else if |rest| >= 2 && rest[1] == '%' then Prepend("%", Interpolate(rest[2..], vars, depth))
    else if |rest| >= 2 && rest[1] == '(' then Reference(rest, vars, depth)
    else None
  }

  /**
   * A `rest` that starts with "%(": the reference "%(name)s" is replaced by
   * the value of `name`, itself substituted one level deeper when it holds
   * a '%'; a reference without its ")s", or to a name the section lacks,
   * raises.
   */
  function Reference(rest: string, vars: map<string, string>, depth: int): (r: Option<string>)
    requires depth <= MaxInterpolationDepth && |rest| >= 2 && rest[0] == '%' && rest[1] == '('
    decreases MaxInterpolationDepth + 1 - depth, |rest|, 0
  {
    var j := 2 + ReferenceEnd(rest[2..]);
    if j == 2 || j + 1 >= |rest| || rest[j + 1] != 's' then None
    else
      var name := Lower(rest[2..j]);
      if name !in vars then None
      else
        var value := if '%' in vars[name] then Interpolate(vars[name], vars, depth + 1) else Some(vars[name]);
        match value
        case None => None
        case Some(v) => Prepend(v, Interpolate(rest[j + 2..], vars, depth))
  }

  /** A value with no '%' is handed back as it is. */
  lemma {:induction false} InterpolatePlain(v: string, vars: map<string, string>, depth: int)
    requires depth <= MaxInterpolationDepth && '%' !in v
    ensures Interpolate(v, vars, depth) == Some(v)
    decreases |v|
  {
    if v != [] {
      assert '%' !in v[1..];
      InterpolatePlain(v[1..], vars, depth);
      assert [v[0]] + v[1..] == v;
    }
  }

  /** Text without '%' in front of a value passes through the substitution unchanged. */
  lemma {:induction false} InterpolatePrefix(a: string, b: string, vars: map<string, string>, depth: int)
    requires depth <= MaxInterpolationDepth && '%' !in a
    ensures Interpolate(a + b, vars, depth) == Prepend(a, Interpolate(b, vars, depth))
    decreases |a|
  {
    if a != [] {
      assert (a + b)[1..] == a[1..] + b;
      assert '%' !in a[1..];
      InterpolatePrefix(a[1..], b, vars, depth);
      assert Interpolate(a + b, vars, depth) == Prepend([a[0]], Interpolate(a[1..] + b, vars, depth));
      var r := Interpolate(b, vars, depth);
      if r.Some? {
        assert [a[0]] + (a[1..] + r.value) == a + r.value;
      }
    } else {
      assert a + b == b;
      var r := Interpolate(b, vars, depth);
      if r.Some? {
        assert a + r.value == r.value;
      }
    }
  }

  /** A '%' followed by neither '%' nor '(' (or by nothing) makes the lookup raise. */
  lemma BarePercentRaises(a: string, b: string, vars: map<string, string>, depth: int)
    requires depth <= MaxInterpolationDepth && '%' !in a
    requires b == [] || (b[0] != '%' && b[0] != '(')
    ensures Interpolate(a + ['%'] + b, vars, depth) == None
  {
    assert a + ['%'] + b == a + (['%'] + b);
    InterpolatePrefix(a, ['%'] + b, vars, depth);
  }

  /** "ab%cdef" holds a bare '%': looking it up raises, whatever the section holds. */
  lemma BarePercentExample(vars: map<string, string>)
    ensures Interpolate("ab%cdef", vars, 1) == None
  {
    assert "ab%cdef" == "ab" + ['%'] + "cdef";
    BarePercentRaises("ab", "cdef", vars, 1);
  }

  /** The text to write so that the lookup hands back `v`: every '%' doubled. */
  function Escape(v: string): (e: string)
    ensures |e| >= |v|
  {
    if v == [] then []
    else if v[0] == '%' then "%%" + Escape(v[1..])
    else [v[0]] + Escape(v[1..])
  }

  /** Doubling every '%' is undone by the lookup: any value can be stored this way. */
  lemma {:induction false} InterpolateEscape(v: string, vars: map<string, string>, depth: int)
    requires depth <= MaxInterpolationDepth
    ensures Interpolate(Escape(v), vars, depth) == Some(v)
    decreases |v|
  {
    if v != [] {
      InterpolateEscape(v[1..], vars, depth);
      var e := Escape(v);
      if v[0] == '%' {
        assert e[0] == '%' && e[1] == '%' && e[2..] == Escape(v[1..]);
      } else {
        assert e[0] == v[0] && e[1..] == Escape(v[1..]);
      }
      assert [v[0]] + v[1..] == v;
    }
  }
}
