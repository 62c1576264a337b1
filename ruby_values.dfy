/** The slice of Ruby and ActiveSupport semantics the dom_data merge relies on:
    the values a declaration or an instance can produce, truthiness, `blank?`,
    `to_s`, and the Array operations `reject(&:blank?)`, `uniq` and `join`. */
module RubyValues {

  /** A Ruby value as far as the rule chain can tell them apart. `Lambda(id)` is a
      Proc object written by the component's author; `id` names it. */
  datatype Datum =
    | Nil
    | Bool(b: bool)
    | Str(s: string)
    | Sym(name: string)
    | Lambda(id: string)

  /** Ruby truthiness: only nil and false are falsy. */
  predicate Truthy(d: Datum) {
    !(d == Nil || d == Bool(false))
  }

  /** The characters of the POSIX bracket class [[:space:]] on a Unicode string
      (the Unicode White_Space property). */
  predicate IsSpace(c: char) {
    || ('\t' <= c <= '\r')
    || c == ' '
    || c == '\U{85}'
    || c == '\U{A0}'
    || c == '\U{1680}'
    || ('\U{2000}' <= c <= '\U{200A}')
    || c == '\U{2028}'
    || c == '\U{2029}'
    || c == '\U{202F}'
    || c == '\U{205F}'
    || c == '\U{3000}'
  }

  /** String#blank?: empty or whitespace only. */
  predicate BlankString(s: string) {
    forall i :: 0 <= i < |s| ==> IsSpace(s[i])
  }

  /** ActiveSupport's Object#blank?: nil and false are blank, a String when it is
      whitespace only, a Symbol when it is empty; true and a Proc never are. */
  predicate Blank(d: Datum) {
    match d
    case Nil => true
    case Bool(b) => !b
    case Str(s) => BlankString(s)
    case Sym(name) => name == ""
    case Lambda(_) => false
  }

  /** Object#to_s, which Array#join applies to each element. A Proc prints as an
      opaque `#<Proc:...>` tag; its exact text is not modelled. */
  function ToS(d: Datum): string {
    match d
    case Nil => ""
    case Bool(b) => if b then "true" else "false"
    case Str(s) => s
    case Sym(name) => name
    case Lambda(id) => "#<Proc:" + id + ">"
  }

  /** `xs.reject(&:blank?)`. */
  function RejectBlank(xs: seq<Datum>): (r: seq<Datum>)
    ensures forall x :: x in r <==> x in xs && !Blank(x)
    ensures |r| <= |xs|
  {
    if xs == [] then []
    else (if Blank(xs[0]) then [] else [xs[0]]) + RejectBlank(xs[1..])
  }

  /** `xs.uniq`: the first occurrence of every element, in order. */
  function Uniq(xs: seq<Datum>): (r: seq<Datum>)
    ensures forall x :: x in r <==> x in xs
    ensures forall i, j :: 0 <= i < j < |r| ==> r[i] != r[j]
    ensures |r| <= |xs|
  {
    if xs == [] then []
    else
      var init := xs[..|xs| - 1];
      var last := xs[|xs| - 1];
      assert forall x :: x in xs <==> x in init || x == last;
      if last in init then Uniq(init) else Uniq(init) + [last]
  }

  /** `xs.join(sep)`. */
  function Join(xs: seq<Datum>, sep: string): string {
    if xs == [] then ""
    else if |xs| == 1 then ToS(xs[0])
    else ToS(xs[0]) + sep + Join(xs[1..], sep)
  }

  /** `s` occurs in `t` starting at index `j`. */
  predicate IncludesAt(t: string, s: string, j: int) {
    0 <= j <= |t| - |s| && t[j..j + |s|] == s
  }

  /** `s` occurs in `t` as a contiguous piece (String#include?). */
  ghost predicate Includes(t: string, s: string) {
    exists j :: IncludesAt(t, s, j)
  }

  /** A piece that is not blank makes the whole string not blank. */
  lemma IncludedNonBlank(t: string, s: string)
    requires Includes(t, s) && !BlankString(s)
    ensures !BlankString(t)
  {
    var j :| IncludesAt(t, s, j);
    var i :| 0 <= i < |s| && !IsSpace(s[i]);
    assert t[j + i] == s[i];
  }
}
