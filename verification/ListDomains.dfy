/** Which list entries become domains: the normalisation of the list parser, label by
    label. A normalised domain has no slash and at most 253 characters. */
module ListDomains {
  import opened Common

  function DropWildcard(s: string): string
  {
    if |s| >= 2 && s[0] == '*' && s[1] == '.' then s[2..] else s
  }

  function DropRootDot(s: string): string
  {
    if s != "" && s[|s| - 1] == '.' then s[..|s| - 1] else s
  }

  predicate IsAlpha(c: char) { 'a' <= c <= 'z' || 'A' <= c <= 'Z' }

  predicate LabelChar(c: char) { IsAlpha(c) || '0' <= c <= '9' || c == '-' || c == '_' }

  /** Position of the first dot at or after `i`, or the end. */
  function DotAt(s: string, i: nat): (e: nat)
    requires i <= |s|
    ensures i <= e <= |s| && (e < |s| ==> s[e] == '.') && forall k :: i <= k < e ==> s[k] != '.'
    decreases |s| - i
  {
    if i == |s| || s[i] == '.' then i else DotAt(s, i + 1)
  }

  predicate LabelOk(l: string)
  {
    1 <= |l| <= 63 && l[0] != '-' && l[|l| - 1] != '-' && AllLabelChars(l)
  }

  predicate AllLabelChars(l: string)
  {
    forall c :: c in l ==> LabelChar(c)
  }

  predicate HasAlpha(s: string)
  {
    exists c :: c in s && IsAlpha(c)
  }

  /** Every dotted label from `i` on is a label. */
  predicate LabelsOk(s: string, i: nat)
    requires i <= |s|
    decreases |s| - i
  {
    var e := DotAt(s, i);
    LabelOk(s[i..e]) && (e == |s| || LabelsOk(s, e + 1))
  }

  /** A domain: 1 to 253 characters, dotted labels of letters, digits, hyphens and
      underscores, none starting or ending with a hyphen, and some letter in it. */
  predicate IsDomain(s: string)
  {
    s != "" && s[|s| - 1] != '.' && |s| <= 253 && LabelsOk(s, 0) && HasAlpha(s)
  }

  method ScanLabel(s: string, start: nat, end: nat) returns (ok: bool, alpha: bool)
    requires start < end <= |s|
    ensures ok <==> AllLabelChars(s[start..end])
    ensures ok ==> (alpha <==> HasAlpha(s[start..end]))
  {
    alpha := false;
    var i := start;
    while i < end
      invariant start <= i <= end && AllLabelChars(s[start..i]) && (alpha <==> HasAlpha(s[start..i]))
    {
      var c := s[i];
      assert s[start..i + 1] == s[start..i] + [c];
      if IsAlpha(c) {
        alpha := true;
        assert c in s[start..i + 1];
      } else if !LabelChar(c) {
        assert c == s[start..end][i - start];
        return false, alpha;
      }
      i := i + 1;
    }
    return true, alpha;
  }

  /** The entry without wildcard prefix and root dot, if that is a domain. */
  method NormalizeDomain(entry: string) returns (r: Option<string>)
    ensures r == var t := DropRootDot(DropWildcard(entry)); if entry != "" && IsDomain(t) then Some(t) else None
  {
    hide HasAlpha, AllLabelChars;
    if entry == "" { return None; }
    var s := DropRootDot(DropWildcard(entry));
    if s == "" || s[|s| - 1] == '.' || |s| > 253 { return None; }
    r := ScanLabels(s);
  }

  method ScanLabels(s: string) returns (r: Option<string>)
    requires s != "" && s[|s| - 1] != '.'
    ensures r == if LabelsOk(s, 0) && HasAlpha(s) then Some(s) else None
  {
    hide HasAlpha, AllLabelChars, LabelsOk, DotAt;
    var hasAlpha := false;
    var start := 0;
    NoAlpha();
    while true
      invariant 0 <= start < |s| && (LabelsOk(s, 0) <==> LabelsOk(s, start)) && (hasAlpha <==> HasAlpha(s[..start]))
      decreases |s| - start
    {
      var end := DotAt(s, start);
      LabelsSplit(s, start);
      if end == start || end - start > 63 { return None; }
      if s[start] == '-' || s[end - 1] == '-' { return None; }
      var ok, alpha := ScanLabel(s, start, end);
      if !ok { return None; }
      AlphaGrows(s, start, end);
      hasAlpha := hasAlpha || alpha;
      if end == |s| { break; }
      start := end + 1;
    }
    assert s[..|s|] == s;
    return if hasAlpha then Some(s) else None;
  }

  lemma NoAlpha()
    ensures !HasAlpha("")
  {}

  lemma LabelsSplit(s: string, i: nat)
    requires i < |s|
    ensures var e := DotAt(s, i);
            && (LabelsOk(s, i) <==>
                i < e <= i + 63 && s[i] != '-' && s[e - 1] != '-' && AllLabelChars(s[i..e])
                    && (e < |s| ==> LabelsOk(s, e + 1)))
  {
    hide AllLabelChars;
    var e := DotAt(s, i);
    if i < e { assert s[i..e][0] == s[i] && s[i..e][e - i - 1] == s[e - 1]; }
  }

  lemma AlphaGrows(s: string, i: nat, e: nat)
    requires i < e <= |s| && (e < |s| ==> s[e] == '.')
    ensures HasAlpha(s[..e]) <==> HasAlpha(s[..i]) || HasAlpha(s[i..e])
    ensures e < |s| ==> (HasAlpha(s[..e + 1]) <==> HasAlpha(s[..e]))
  {
    assert s[..e] == s[..i] + s[i..e];
    if e < |s| { assert s[..e + 1] == s[..e] + ['.']; }
  }

  lemma {:induction false} LabelsHaveLabelChars(s: string, i: nat)
    requires i <= |s| && LabelsOk(s, i)
    ensures forall c :: c in s[i..] ==> LabelChar(c) || c == '.'
    decreases |s| - i
  {
    hide DotAt, LabelChar;
    var e := DotAt(s, i);
    assert AllLabelChars(s[i..e]);
    if e == |s| {
      assert s[i..] == s[i..e];
    } else {
      LabelsHaveLabelChars(s, e + 1);
      assert s[i..] == s[i..e] + ['.'] + s[e + 1..];
    }
  }

  /** What the dnsmasq generator relies on: no separator of its directives or of the hashed
      records occurs in a domain. */
  lemma DomainIsPlain(s: string)
    requires IsDomain(s)
    ensures 1 <= |s| <= 253 && '/' !in s && forall c :: c in s ==> LabelChar(c) || c == '.'
  {
    LabelsHaveLabelChars(s, 0);
    assert s[0..] == s && !LabelChar('/');
  }
}
