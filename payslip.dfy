/**
 * The default payslip file name (portal-api.js, line 84):
 * `filename || `${employeeName.replace(/\s+/g,'_')}_payslip_${period}.pdf``.
 */
module Payslip {
  import opened Wrappers

  /** A character the regular-expression class `\s` matches (white space and line terminators). */
  predicate IsWhitespace(ch: char)
  {
    || ch in {' ', '\t', '\n', '\U{B}', '\U{C}', '\r', '\U{A0}', '\U{1680}'}
    || '\U{2000}' <= ch <= '\U{200A}'
    || ch in {'\U{2028}', '\U{2029}', '\U{202F}', '\U{205F}', '\U{3000}', '\U{FEFF}'}
  }

  predicate HasNoWhitespace(s: string)
  {
    forall i :: 0 <= i < |s| ==> !IsWhitespace(s[i])
  }

  /** `s` with its leading run of white space removed. */
  function SkipWhitespace(s: string): (r: string)
    ensures |r| <= |s| && r == s[|s| - |r|..]
    ensures r == [] || !IsWhitespace(r[0])
    ensures forall i :: 0 <= i < |s| - |r| ==> IsWhitespace(s[i])
  {
    if s != [] && IsWhitespace(s[0]) then SkipWhitespace(s[1..]) else s
  }

  /** `s.replace(/\s+/g, '_')`: every maximal run of white space becomes one underscore. */
  function CollapseWhitespace(s: string): (r: string)
    ensures HasNoWhitespace(r)
    ensures |r| <= |s|
    decreases |s|
  {
    if s == [] then []
    else if IsWhitespace(s[0]) then "_" + CollapseWhitespace(SkipWhitespace(s[1..]))
    else [s[0]] + CollapseWhitespace(s[1..])
  }

  /** A name with no white space is left as it is. */
  lemma {:induction false} CollapseKeepsPlainText(s: string)
    requires HasNoWhitespace(s)
    ensures CollapseWhitespace(s) == s
    decreases |s|
  {
    if s != [] {
      CollapseKeepsPlainText(s[1..]);
    }
  }

  /** Skipping a run of white space that is followed by a non-white-space start lands on that start. */
  lemma {:induction false} SkipRun(w: string, b: string)
    requires forall i :: 0 <= i < |w| ==> IsWhitespace(w[i])
    requires b == [] || !IsWhitespace(b[0])
    ensures SkipWhitespace(w + b) == b
  {
    if w != [] {
      assert (w + b)[1..] == w[1..] + b;
      SkipRun(w[1..], b);
    }
  }

  /**
   * The defining property of the replacement: text without white space is
   * kept, and a maximal run `w` of white space becomes exactly one `_`.
   */
  lemma {:induction false} CollapseRun(a: string, w: string, b: string)
    requires HasNoWhitespace(a)
    requires w != [] && forall i :: 0 <= i < |w| ==> IsWhitespace(w[i])
    requires b == [] || !IsWhitespace(b[0])
    ensures CollapseWhitespace(a + w + b) == a + "_" + CollapseWhitespace(b)
    decreases |a|
  {
    if a == [] {
      assert a + w + b == w + b;
      assert (w + b)[1..] == w[1..] + b;
      SkipRun(w[1..], b);
    } else {
      assert (a + w + b)[1..] == a[1..] + w + b;
      CollapseRun(a[1..], w, b);
      assert a + "_" + CollapseWhitespace(b) == [a[0]] + (a[1..] + "_" + CollapseWhitespace(b));
    }
  }

  /** Replacing twice is replacing once. */
  lemma CollapseIdempotent(s: string)
    ensures CollapseWhitespace(CollapseWhitespace(s)) == CollapseWhitespace(s)
  {
    CollapseKeepsPlainText(CollapseWhitespace(s));
  }

  /** The characters of `s` that are neither white space nor underscores, in order. */
  function Visible(s: string): (r: string)
    ensures |r| <= |s|
  {
    if s == [] then []
    else if IsWhitespace(s[0]) || s[0] == '_' then Visible(s[1..])
    else [s[0]] + Visible(s[1..])
  }

  /** Dropping a run of white space changes no visible character. */
  lemma {:induction false} SkipKeepsVisible(s: string)
    ensures Visible(SkipWhitespace(s)) == Visible(s)
  {
    if s != [] && IsWhitespace(s[0]) {
      SkipKeepsVisible(s[1..]);
    }
  }

  /** Replacing white space keeps every other character, in order. */
  lemma {:induction false} CollapseKeepsVisible(s: string)
    ensures Visible(CollapseWhitespace(s)) == Visible(s)
    decreases |s|
  {
    if s == [] {
    } else if IsWhitespace(s[0]) {
      var rest := SkipWhitespace(s[1..]);
      CollapseKeepsVisible(rest);
      SkipKeepsVisible(s[1..]);
      assert ("_" + CollapseWhitespace(rest))[1..] == CollapseWhitespace(rest);
    } else {
      CollapseKeepsVisible(s[1..]);
      assert ([s[0]] + CollapseWhitespace(s[1..]))[1..] == CollapseWhitespace(s[1..]);
    }
  }

  /** The name passed to `doc.save`; a `None` or empty `filename` is falsy. */
  function PayslipFilename(employeeName: string, period: string, filename: Option<string>): (name: string)
    ensures filename.Some? && filename.value != "" ==> name == filename.value
    ensures filename == None || filename == Some("") ==>
      var stem := CollapseWhitespace(employeeName);
      && name == stem + "_payslip_" + period + ".pdf"
      && HasNoWhitespace(stem)
  {
    if filename.Some? && filename.value != "" then filename.value
    else CollapseWhitespace(employeeName) + "_payslip_" + period + ".pdf"
  }
}
