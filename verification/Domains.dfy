/** The check that a new cloud endpoint is a domain name. Characters are bytes. */
module Domains {
  const MAX_LABEL := 63
  const MAX_NAME := 253

  /** The position of the first dot, or the length. */
  function FirstDot(s: string): (k: nat)
    ensures k <= |s| && (k < |s| ==> s[k] == '.') && forall i :: 0 <= i < k ==> s[i] != '.'
  {
    if s == "" || s[0] == '.' then 0 else 1 + FirstDot(s[1..])
  }

  /** strings.Split(s, "."): one label more than there are dots. */
  function Labels(s: string): (labels: seq<string>)
    ensures |labels| >= 1
    decreases |s|
  {
    var k := FirstDot(s);
    if k == |s| then [s] else [s[..k]] + Labels(s[k + 1..])
  }

  function Join(labels: seq<string>): string {
    if labels == [] then ""
    else if |labels| == 1 then labels[0]
    else labels[0] + "." + Join(labels[1..])
  }

  lemma {:induction false} LabelsStep(s: string)
    requires FirstDot(s) < |s|
    ensures
      var k := FirstDot(s);
      Labels(s) == [s[..k]] + Labels(s[k + 1..]) && s == s[..k] + "." + s[k + 1..] && '.' !in s[..k]
  {
  }

  lemma {:induction false} JoinMore(part: string, rest: seq<string>)
    requires rest != []
    ensures Join([part] + rest) == part + "." + Join(rest)
  {
    assert ([part] + rest)[1..] == rest;
  }

  /** Labels are the split: joined by dots they give the string back. */
  lemma {:induction false} LabelsJoin(s: string)
    ensures Join(Labels(s)) == s
    decreases |s|
  {
    var k := FirstDot(s);
    if k < |s| {
      LabelsStep(s);
      LabelsJoin(s[k + 1..]);
      JoinMore(s[..k], Labels(s[k + 1..]));
    }
  }

  /** And they are free of dots. */
  lemma {:induction false} LabelsDotFree(s: string, i: nat)
    requires i < |Labels(s)|
    ensures '.' !in Labels(s)[i]
    decreases |s|
  {
    var k := FirstDot(s);
    if k < |s| {
      LabelsStep(s);
      if i > 0 {
        LabelsDotFree(s[k + 1..], i - 1);
      }
    }
  }

  predicate ContainsAt(s: string, sub: string, i: int) {
    0 <= i <= |s| - |sub| && s[i..i + |sub|] == sub
  }

  predicate Contains(s: string, sub: string) {
    exists i :: 0 <= i <= |s| - |sub| && ContainsAt(s, sub, i)
  }

  predicate LabelOk(part: string) {
    part != "" && |part| <= MAX_LABEL
  }

  predicate LabelsOk(labels: seq<string>) {
    forall i :: 0 <= i < |labels| ==> LabelOk(labels[i])
  }

  /** isValidDomain. Whether net.ParseIP takes the string for an address is an observation. */
  method IsValidDomain(s: string, isAddress: bool) returns (ok: bool)
    ensures ok <==> ValidDomain(s, isAddress)
  {
    LabelsOkIff(s);
    if s == "" || |s| > MAX_NAME {
      return false;
    }
    if Contains(s, "://") {
      return false;
    }
    if isAddress {
      return false;
    }
    var labels := Labels(s);
    for i := 0 to |labels|
      invariant forall j :: 0 <= j < i ==> LabelOk(labels[j])
    {
      if labels[i] == "" || |labels[i]| > MAX_LABEL {
        return false;
      }
    }
    return true;
  }

  /** One of the 64 characters from `i` on is a dot. */
  predicate DotSoon(s: string, i: int) {
    exists j :: i <= j <= i + 63 && 0 <= j < |s| && s[j] == '.'
  }

  /** What the check accepts, character by character: no dot at either end, no two dots in a
      row, and a dot among any 64 characters in a row. */
  predicate Dotted(s: string) {
    && s != "" && s[0] != '.' && s[|s| - 1] != '.'
    && (forall i :: 0 < i < |s| && s[i] == '.' ==> s[i - 1] != '.')
    && (forall i :: 0 <= i < |s| - 63 ==> DotSoon(s, i))
  }

  predicate ValidDomain(s: string, isAddress: bool) {
    Dotted(s) && |s| <= 253 && !Contains(s, "://") && !isAddress
  }

  lemma {:induction false} LabelsOkIff(s: string)
    ensures LabelsOk(Labels(s)) <==> Dotted(s)
    decreases |s|
  {
    var k := FirstDot(s);
    if k == |s| {
      OneLabel(s);
    } else {
      var rest := s[k + 1..];
      LabelsOkIff(rest);
      var labels := Labels(s);
      assert labels[0] == s[..k] && labels[1..] == Labels(rest);
      assert LabelsOk(labels) <==> LabelOk(s[..k]) && LabelsOk(Labels(rest)) by {
        assert forall i :: 0 <= i < |Labels(rest)| ==> labels[1..][i] == labels[i + 1];
      }
      FirstLabel(s, k);
    }
  }

  lemma OneLabel(s: string)
    requires '.' !in s
    ensures LabelsOk([s]) <==> Dotted(s)
  {
    assert LabelsOk([s]) <==> LabelOk([s][0]);
    if |s| > MAX_LABEL {
      assert !DotSoon(s, 0);
    }
  }

  lemma {:induction false} FirstLabel(s: string, k: nat)
    requires k < |s| && s[k] == '.' && forall i :: 0 <= i < k ==> s[i] != '.'
    ensures Dotted(s) <==> LabelOk(s[..k]) && Dotted(s[k + 1..])
  {
    var rest := s[k + 1..];
    assert DotSoon(s, 0) ==> k <= MAX_LABEL;
    if Dotted(s) {
      forall i | 0 <= i < |rest| - MAX_LABEL ensures DotSoon(rest, i) {
        assert DotSoon(s, k + 1 + i);
        var j :| k + 1 + i <= j <= k + 1 + i + MAX_LABEL && 0 <= j < |s| && s[j] == '.';
        assert rest[j - k - 1] == '.';
      }
    }
    if LabelOk(s[..k]) && Dotted(rest) {
      forall i | 0 <= i < |s| - MAX_LABEL ensures DotSoon(s, i) {
        if i > k {
          assert DotSoon(rest, i - k - 1);
          var j :| i - k - 1 <= j <= i - k - 1 + MAX_LABEL && 0 <= j < |rest| && rest[j] == '.';
          assert s[j + k + 1] == '.';
        }
      }
      assert rest[0] == s[k + 1];
      forall i | 0 < i < |s| && s[i] == '.' ensures s[i - 1] != '.' {
        if i > k + 1 {
          assert rest[i - k - 1] == s[i] && rest[i - k - 2] == s[i - 1];
        }
      }
    }
  }

  lemma FirstChar(s: string, sub: string)
    requires sub != "" && Contains(s, sub)
    ensures sub[0] in s
  {
    var i :| 0 <= i <= |s| - |sub| && ContainsAt(s, sub, i);
    assert s[i] == s[i..i + |sub|][0];
  }

  /** A name without dots and colons is accepted exactly if it has at most 63 characters and is no
      address. */
  lemma OneLabelIff(s: string, isAddress: bool)
    requires '.' !in s && ':' !in s
    ensures ValidDomain(s, isAddress) <==> 1 <= |s| <= 63 && !isAddress
  {
    if Contains(s, "://") {
      FirstChar(s, "://");
    }
    if |s| > 63 {
      assert !DotSoon(s, 0);
    }
  }
}
