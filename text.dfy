/** String helpers used by the backend's error messages and the form's digit rule. */
module Text {

  /** `parts.join(sep)`: the parts with `sep` between consecutive ones. */
  function Join(parts: seq<string>, sep: string): string
  {
    if |parts| == 0 then ""
    else if |parts| == 1 then parts[0]
    else parts[0] + sep + Join(parts[1..], sep)
  }

  /** Splits a string at every occurrence of ", "; the inverse of joining with ", "
      for parts that hold no comma. */
  function SplitAtCommaSpace(s: string): (r: seq<string>)
    ensures |r| >= 1
    decreases |s|
  {
    if |s| == 0 then [""]
    else if |s| >= 2 && s[0] == ',' && s[1] == ' ' then [""] + SplitAtCommaSpace(s[2..])
    else
      var rest := SplitAtCommaSpace(s[1..]);
      [[s[0]] + rest[0]] + rest[1..]
  }

  /** A comma-free prefix is glued onto the first piece of what follows it. */
  lemma {:induction false} SplitCommaFreePrefix(x: string, t: string)
    requires ',' !in x
    ensures SplitAtCommaSpace(x + t)
         == [x + SplitAtCommaSpace(t)[0]] + SplitAtCommaSpace(t)[1..]
    decreases |x|
  {
    if |x| == 0 {
      var r := SplitAtCommaSpace(t);
      assert x + t == t && x + r[0] == r[0];
      assert [r[0]] + r[1..] == r;
    } else {
      assert x + t == [x[0]] + (x[1..] + t);
      assert (x + t)[1..] == x[1..] + t;
      SplitCommaFreePrefix(x[1..], t);
      assert [x[0]] + (x[1..] + SplitAtCommaSpace(t)[0]) == x + SplitAtCommaSpace(t)[0];
    }
  }

  /** Joining comma-free parts with ", " loses nothing: splitting gives them back. */
  lemma {:induction false} SplitJoin(parts: seq<string>)
    requires |parts| > 0
    requires forall i :: 0 <= i < |parts| ==> ',' !in parts[i]
    ensures SplitAtCommaSpace(Join(parts, ", ")) == parts
    decreases |parts|
  {
    if |parts| == 1 {
      SplitCommaFreePrefix(parts[0], "");
      assert parts[0] + "" == parts[0];
    } else {
      var rest := Join(parts[1..], ", ");
      assert Join(parts, ", ") == parts[0] + (", " + rest);
      SplitCommaFreePrefix(parts[0], ", " + rest);
      assert (", " + rest)[2..] == rest;
      SplitJoin(parts[1..]);
      assert SplitAtCommaSpace(", " + rest) == [""] + parts[1..];
      assert parts[0] + "" == parts[0];
      assert parts == [parts[0]] + parts[1..];
    }
  }

  /** `\d` of a JavaScript regular expression without the `u` flag: an ASCII digit. */
  predicate IsDigit(c: char)
  {
    '0' <= c <= '9'
  }

  /** Every character of `s` is a digit (true of the empty string). */
  function AllDigits(s: string): (r: bool)
    ensures r <==> forall i :: 0 <= i < |s| ==> IsDigit(s[i])
  {
    if |s| == 0 then true else IsDigit(s[0]) && AllDigits(s[1..])
  }

  /** The regular expression `/^\d+$/`: one or more digits and nothing else. */
  function MatchesDigitsOnly(s: string): (r: bool)
    ensures r <==> |s| > 0 && forall i :: 0 <= i < |s| ==> IsDigit(s[i])
    ensures r ==> s != "" && '-' !in s && ' ' !in s
  {
    |s| > 0 && AllDigits(s)
  }
}
