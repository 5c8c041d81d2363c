/** The Python library behaviour the relay's string handling depends on:
    `str.split` and `str.join` with a one-character separator, and
    `string.Template.substitute` over an already parsed template. */
module Text {

  datatype Option<+T> = None | Some(value: T)

  datatype Result<+T, +E> = Ok(value: T) | Err(error: E)

  /** Python's `sep.join(parts)`: the first part comes first. */
  function Join(parts: seq<string>, sep: char): (s: string)
    ensures |parts| > 0 ==> parts[0] <= s
  {
    if |parts| == 0 then ""
    else if |parts| == 1 then parts[0]
    else parts[0] + [sep] + Join(parts[1..], sep)
  }

  /** Joining separator-free parts puts exactly one separator between
      neighbours: the join holds one separator fewer than there are parts. */
  lemma {:induction false} JoinCount(parts: seq<string>, sep: char)
    requires |parts| > 0
    requires forall i :: 0 <= i < |parts| ==> sep !in parts[i]
    ensures multiset(Join(parts, sep))[sep] == |parts| - 1
  {
    if |parts| > 1 {
      var rest := Join(parts[1..], sep);
      JoinCount(parts[1..], sep);
      assert multiset(parts[0] + [sep] + rest) == multiset(parts[0]) + multiset([sep]) + multiset(rest);
    }
  }

  /** Python's `s.split(sep)`: never empty, one more part than there are
      separators, no part holds a separator, and joining gives `s` back. */
  function Split(s: string, sep: char): (parts: seq<string>)
    ensures |parts| == multiset(s)[sep] + 1
    ensures forall i :: 0 <= i < |parts| ==> sep !in parts[i]
    ensures Join(parts, sep) == s
  {
    if |s| == 0 then [""]
    else
      var rest := Split(s[1..], sep);
      assert s == [s[0]] + s[1..];
      SplitStep(s[0], s[1..], rest, sep);
      Prepend(s[0], rest, sep)
  }

  /** The parts of `[c] + t` from the parts of `t`: a separator starts a new
      empty part, any other character joins the first part. */
  function Prepend(c: char, rest: seq<string>, sep: char): seq<string>
    requires |rest| > 0
  {
    if c == sep then [""] + rest else [[c] + rest[0]] + rest[1..]
  }

  /** `Prepend` keeps the three properties of a split. */
  lemma SplitStep(c: char, t: string, rest: seq<string>, sep: char)
    requires |rest| == multiset(t)[sep] + 1
    requires forall i :: 0 <= i < |rest| ==> sep !in rest[i]
    requires Join(rest, sep) == t
    ensures |Prepend(c, rest, sep)| == multiset([c] + t)[sep] + 1
    ensures forall i :: 0 <= i < |Prepend(c, rest, sep)| ==> sep !in Prepend(c, rest, sep)[i]
    ensures Join(Prepend(c, rest, sep), sep) == [c] + t
  {
    assert multiset([c] + t) == multiset([c]) + multiset(t);
    if c == sep {
      JoinAfterSeparator(rest, sep);
      SeparatorFree([""], rest, sep);
    } else {
      JoinAfterChar(c, rest, sep);
      assert sep !in [c] + rest[0];
      SeparatorFree([[c] + rest[0]], rest[1..], sep);
    }
  }

  /** Two separator-free part lists concatenate to one. */
  lemma SeparatorFree(p: seq<string>, q: seq<string>, sep: char)
    requires forall i :: 0 <= i < |p| ==> sep !in p[i]
    requires forall i :: 0 <= i < |q| ==> sep !in q[i]
    ensures forall i :: 0 <= i < |p + q| ==> sep !in (p + q)[i]
  {
    assert forall i :: |p| <= i < |p + q| ==> (p + q)[i] == q[i - |p|];
  }

  /** An empty first part contributes only the separator. */
  lemma JoinAfterSeparator(parts: seq<string>, sep: char)
    requires |parts| > 0
    ensures Join([""] + parts, sep) == [sep] + Join(parts, sep)
  {
    assert ([""] + parts)[1..] == parts;
  }

  /** A character put in front of the first part comes first in the join. */
  lemma JoinAfterChar(c: char, parts: seq<string>, sep: char)
    requires |parts| > 0
    ensures Join([[c] + parts[0]] + parts[1..], sep) == [c] + Join(parts, sep)
  {
    var q := [[c] + parts[0]] + parts[1..];
    assert q[1..] == parts[1..];
    if |parts| > 1 {
      assert [c] + parts[0] + [sep] + Join(parts[1..], sep) == [c] + (parts[0] + [sep] + Join(parts[1..], sep));
    }
  }

  /** In `x + [sep] + y` with `x` free of `sep`, the first separator sits at `|x|`. */
  lemma FirstSeparator(x: string, y: string, sep: char)
    requires sep !in x
    ensures (x + [sep] + y)[|x|] == sep
    ensures forall k :: 0 <= k < |x| ==> (x + [sep] + y)[k] != sep
  {
    assert forall k :: 0 <= k < |x| ==> (x + [sep] + y)[k] == x[k];
  }

  /** Joining separator-free parts loses nothing: equal joins come from
      equal part lists. */
  lemma {:induction false} JoinInjective(p: seq<string>, q: seq<string>, sep: char)
    requires |p| > 0 && |q| > 0
    requires forall i :: 0 <= i < |p| ==> sep !in p[i]
    requires forall i :: 0 <= i < |q| ==> sep !in q[i]
    requires Join(p, sep) == Join(q, sep)
    ensures p == q
  {
    var s := Join(p, sep);
    if |p| > 1 && |q| > 1 {
      FirstSeparator(p[0], Join(p[1..], sep), sep);
      FirstSeparator(q[0], Join(q[1..], sep), sep);
      assert |p[0]| == |q[0]|;
      assert p[0] == s[..|p[0]|] == q[0];
      assert Join(p[1..], sep) == s[|p[0]| + 1..] == Join(q[1..], sep);
      JoinInjective(p[1..], q[1..], sep);
      assert p == [p[0]] + p[1..];
      assert q == [q[0]] + q[1..];
    }
  }

  /** Splitting undoes joining, for a non-empty list of separator-free parts. */
  lemma SplitJoin(parts: seq<string>, sep: char)
    requires |parts| > 0
    requires forall i :: 0 <= i < |parts| ==> sep !in parts[i]
    ensures Split(Join(parts, sep), sep) == parts
  {
    JoinInjective(Split(Join(parts, sep), sep), parts, sep);
  }

  /** One element of a parsed `string.Template`: literal text or a
      `$name` placeholder. */
  datatype Piece = Literal(text: string) | Placeholder(name: string)

  /** A placeholder with no value among `values`. */
  predicate Missing(piece: Piece, values: map<string, string>)
  {
    piece.Placeholder? && piece.name !in values
  }

  /** The text one piece contributes, or the name it lacks. */
  function Fill(piece: Piece, values: map<string, string>): Result<string, string>
  {
    match piece
    case Literal(t) => Ok(t)
    case Placeholder(n) => if n in values then Ok(values[n]) else Err(n)
  }

  /** `string.Template(...).substitute(values)`: placeholders are replaced
      left to right; the first placeholder without a value raises
      `KeyError(name)`, here `Err(name)`. */
  function Substitute(template: seq<Piece>, values: map<string, string>): (r: Result<string, string>)
    ensures r.Err? <==> exists i :: 0 <= i < |template| && Missing(template[i], values)
    ensures r.Err? ==> exists i :: 0 <= i < |template| && template[i] == Placeholder(r.error)
                          && Missing(template[i], values)
                          && forall j :: 0 <= j < i ==> !Missing(template[j], values)
  {
    if |template| == 0 then Ok("")
    else
      assert forall i :: 0 < i < |template| ==> template[i] == template[1..][i - 1];
      match Fill(template[0], values)
      case Err(n) => Err(n)
      case Ok(h) =>
        match Substitute(template[1..], values)
        case Err(n) => Err(n)
        case Ok(t) => Ok(h + t)
  }

  /** Substitution works piece by piece: the result for a concatenated
      template is the concatenation of the results. */
  lemma {:induction false} SubstituteAppend(a: seq<Piece>, b: seq<Piece>, values: map<string, string>)
    requires Substitute(a, values).Ok? && Substitute(b, values).Ok?
    ensures Substitute(a + b, values) == Ok(Substitute(a, values).value + Substitute(b, values).value)
  {
    var y := Substitute(b, values).value;
    if |a| > 0 {
      assert (a + b)[0] == a[0];
      assert (a + b)[1..] == a[1..] + b;
      var h := Fill(a[0], values).value;
      var x := Substitute(a[1..], values).value;
      SubstituteAppend(a[1..], b, values);
      assert h + (x + y) == (h + x) + y;
    } else {
      assert a + b == b;
      assert "" + y == y;
    }
  }
}
