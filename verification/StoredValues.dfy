/**
 Respelling text literals against stored values (app/sql/values.py, app/sql/service.py), over ASCII text.

 Main results: `DatabaseSelectsKey`, that the form the database computes selects exactly the
 values of the literal's key; `Check` and `Probe`, that only an unstored literal is rewritten,
 and only to the sole stored value of its key; and `CheckTwice`, that checking again changes
 nothing and reports the same unmatched literals.
 */
module StoredValues {
  import opened Seqs

  predicate IsDigit(c: char) { '0' <= c <= '9' }

  predicate IsUpper(c: char) { 'A' <= c <= 'Z' }

  predicate IsAlnum(c: char) { IsDigit(c) || IsUpper(c) || 'a' <= c <= 'z' }

  function LowerChar(c: char): char {
    if IsUpper(c) then c - 'A' + 'a' else c
  }

  /** Letters and digits, in lower case. */
  function Kept(s: string): string {
    if s == [] then []
    else (if IsAlnum(s[0]) then [LowerChar(s[0])] else []) + Kept(s[1..])
  }

  predicate IsDigits(s: string) {
    s != [] && forall i :: 0 <= i < |s| ==> IsDigit(s[i])
  }

  function WithoutZeros(s: string): string {
    if s != [] && s[0] == '0' then WithoutZeros(s[1..]) else s
  }

  function Unpadded(s: string): string {
    if WithoutZeros(s) == [] then "0" else WithoutZeros(s)
  }

  /** What two spellings share: letters and digits in one case, and a number's digits from its first non-zero one. */
  function Key(value: string): string {
    if IsDigits(Kept(value)) then Unpadded(Kept(value)) else Kept(value)
  }

  const LOWER := "abcdefghijklmnopqrstuvwxyz"
  const UPPER := "ABCDEFGHIJKLMNOPQRSTUVWXYZ"

  /** One character, or one letter in two cases. */
  predicate SameLetter(c: char, d: char) {
    c == d || exists i :: 0 <= i < 26 && {c, d} == {LOWER[i], UPPER[i]}
  }

  lemma LowerMeets(c: char, d: char)
    ensures LowerChar(c) == LowerChar(d) <==> SameLetter(c, d)
  {
    Alphabets();
    if LowerChar(c) == LowerChar(d) && c != d {
      var i := if IsUpper(c) then c as int - 'A' as int else d as int - 'A' as int;
      assert {c, d} == {LOWER[i], UPPER[i]};
    }
    if i :| 0 <= i < 26 && {c, d} == {LOWER[i], UPPER[i]} {
      assert c in {LOWER[i], UPPER[i]} && d in {LOWER[i], UPPER[i]};
    }
  }

  lemma Alphabets()
    ensures forall i :: 0 <= i < 26 ==> UPPER[i] == ('A' as int + i) as char && LOWER[i] == ('a' as int + i) as char
  {
  }

  /** Texts of letters and digits have one key exactly when they are alike but for case, unless they are numbers. */
  lemma {:induction false} KeyTells(s: string, t: string)
    requires (forall i :: 0 <= i < |s| ==> IsAlnum(s[i])) && forall i :: 0 <= i < |t| ==> IsAlnum(t[i])
    requires !IsDigits(Kept(s)) && !IsDigits(Kept(t))
    ensures Key(s) == Key(t) <==> |s| == |t| && forall i :: 0 <= i < |s| ==> SameLetter(s[i], t[i])
  {
    KeptAll(s);
    KeptAll(t);
    forall i | 0 <= i < |s| && i < |t| ensures LowerChar(s[i]) == LowerChar(t[i]) <==> SameLetter(s[i], t[i]) {
      LowerMeets(s[i], t[i]);
    }
  }

  lemma {:induction false} KeptAll(s: string)
    requires forall i :: 0 <= i < |s| ==> IsAlnum(s[i])
    ensures |Kept(s)| == |s| && forall i :: 0 <= i < |s| ==> Kept(s)[i] == LowerChar(s[i])
  {
    if s != [] { KeptAll(s[1..]); }
  }

  /** Anything but letters and digits makes no difference to a key, wherever it stands. */
  lemma {:induction false} KeyPasses(a: string, c: char, b: string)
    requires !IsAlnum(c)
    ensures Key(a + [c] + b) == Key(a + b)
  {
    KeptPasses(a, c, b);
  }

  lemma {:induction false} KeptPasses(a: string, c: char, b: string)
    requires !IsAlnum(c)
    ensures Kept(a + [c] + b) == Kept(a + b)
  {
    if a == [] {
      assert [] + [c] + b == [c] + b && [] + b == b && ([c] + b)[1..] == b;
    } else {
      KeptPasses(a[1..], c, b);
      assert (a + [c] + b)[1..] == a[1..] + [c] + b && (a + b)[1..] == a[1..] + b;
    }
  }

  /** Leading zeros make none to a number's. */
  lemma NumbersPadded(s: string)
    requires IsDigits(s)
    ensures Key(['0'] + s) == Key(s)
  {
    KeptDigits(s);
    KeptDigits(['0'] + s);
    assert (['0'] + s)[1..] == s;
  }

  lemma {:induction false} KeptAgain(s: string)
    ensures Kept(Kept(s)) == Kept(s)
  {
    if s != [] {
      KeptAgain(s[1..]);
      if IsAlnum(s[0]) {
        assert Kept(s)[0] == LowerChar(s[0]) && Kept(s)[1..] == Kept(s[1..]);
      } else {
        assert Kept(s) == Kept(s[1..]);
      }
    }
  }

  lemma {:induction false} KeptDigits(s: string)
    requires forall i :: 0 <= i < |s| ==> IsDigit(s[i])
    ensures Kept(s) == s
  {
    if s != [] { KeptDigits(s[1..]); }
  }

  lemma {:induction false} UnpaddedDigits(s: string)
    requires IsDigits(s)
    ensures IsDigits(Unpadded(s)) && Unpadded(Unpadded(s)) == Unpadded(s)
  {
    ZerosGone(s);
    assert "0"[1..] == [] && WithoutZeros("0") == WithoutZeros([]);
  }

  lemma {:induction false} ZerosGone(s: string)
    requires forall i :: 0 <= i < |s| ==> IsDigit(s[i])
    ensures forall i :: 0 <= i < |WithoutZeros(s)| ==> IsDigit(WithoutZeros(s)[i])
    ensures WithoutZeros(s) == [] || WithoutZeros(s)[0] != '0'
  {
    if s != [] && s[0] == '0' { ZerosGone(s[1..]); }
  }

  /** A key is its own key. */
  lemma KeyAgain(value: string)
    ensures Key(Key(value)) == Key(value)
  {
    var k := Kept(value);
    KeptAgain(value);
    if IsDigits(k) {
      UnpaddedDigits(k);
      KeptDigits(Unpadded(k));
    }
  }

  /**
   Whether the database's form of a stored value equals the literal's key: letters and digits in
   lower case, and for a key of digits only values of digits, without their zeros.
   */
  predicate DatabaseSelects(stored: string, key: string) {
    var form := Kept(stored);
    if IsDigits(key) then IsDigits(form) && Unpadded(form) == key else form == key
  }

  /** The database-side form selects exactly the stored values whose key is the literal's. */
  lemma DatabaseSelectsKey(stored: string, literal: string)
    ensures DatabaseSelects(stored, Key(literal)) <==> Key(stored) == Key(literal)
  {
    if IsDigits(Kept(literal)) { UnpaddedDigits(Kept(literal)); }
    if IsDigits(Kept(stored)) { UnpaddedDigits(Kept(stored)); }
  }

  // Checking the literals of a query.

  type Target = (string, string)

  /** A text literal compared with a column; None where the column does not resolve to a table's. */
  datatype Site = Site(target: Option<Target>, value: string)

  /** The complete list of values of each column whose values are known. */
  type Domains = map<Target, seq<string>>

  function HasKey(key: string): string -> bool { (v: string) => Key(v) == key }

  function Spellings(domain: seq<string>, value: string): seq<string> {
    Filter(domain, HasKey(Key(value)))
  }

  predicate Checked(site: Site, domains: Domains) {
    site.target.Some? && site.target.value in domains
  }

  /** The stored value an unstored literal is rewritten to. */
  predicate Sole(domain: seq<string>, value: string) {
    value !in domain && |Spellings(domain, value)| == 1
  }

  function Respelled(site: Site, domains: Domains): Site {
    if Checked(site, domains) && Sole(domains[site.target.value], site.value)
    then site.(value := Spellings(domains[site.target.value], site.value)[0]) else site
  }

  predicate IsUnmatched(site: Site, domains: Domains) {
    Checked(site, domains) && site.value !in domains[site.target.value] && !Sole(domains[site.target.value], site.value)
  }

  function Unmatched(domains: Domains): Site -> bool { (s: Site) => IsUnmatched(s, domains) }

  function Respelling(domains: Domains): Site -> Site { (s: Site) => Respelled(s, domains) }

  method CheckSite(site: Site, domains: Domains) returns (now: Site, settled: bool)
    ensures now == Respelled(site, domains) && settled == !IsUnmatched(site, domains)
    ensures !settled ==> now == site
  {
    now, settled := site, true;
    if Checked(site, domains) && site.value !in domains[site.target.value] {
      var matches := Spellings(domains[site.target.value], site.value);
      if |matches| == 1 {
        now := site.(value := matches[0]);
      } else {
        settled := false;
      }
    }
  }

  method Check(sites: seq<Site>, domains: Domains) returns (result: seq<Site>, changes: nat, unmatched: seq<Site>)
    ensures result == Map(sites, Respelling(domains)) && unmatched == Filter(sites, Unmatched(domains))
    ensures changes == 0 ==> result == sites
  {
    result, changes, unmatched := sites, 0, [];
    for k := 0 to |sites|
      invariant |result| == |sites| && forall i :: 0 <= i < k ==> result[i] == Respelled(sites[i], domains)
      invariant forall i :: k <= i < |sites| ==> result[i] == sites[i]
      invariant unmatched == Filter(sites[..k], Unmatched(domains))
      invariant changes == 0 ==> result == sites
    {
      FilterSnoc(sites, k, Unmatched(domains));
      var site, settled := CheckSite(sites[k], domains);
      if !settled {
        unmatched := unmatched + [site];
      } else if site != sites[k] {
        result, changes := result[k := site], changes + 1;
      }
    }
    assert sites[..|sites|] == sites;
  }

  lemma FilterSnoc<T(!new)>(s: seq<T>, k: nat, p: T -> bool)
    requires k < |s|
    ensures Filter(s[..k + 1], p) == Filter(s[..k], p) + if p(s[k]) then [s[k]] else []
  {
    assert s[..k + 1] == s[..k] + [s[k]] && [s[k]][1..] == [];
    FilterConcat(s[..k], [s[k]], p);
  }

  /** Only an unstored literal changes, and only to the one stored value that has its key. */
  lemma RespelledIsStored(site: Site, domains: Domains)
    ensures var r := Respelled(site, domains);
      r != site ==>
        && Checked(site, domains) && r.target == site.target
        && site.value !in domains[site.target.value] && r.value in domains[site.target.value]
        && Key(r.value) == Key(site.value)
        && forall v :: v in domains[site.target.value] && Key(v) == Key(site.value) ==> v == r.value
  {
    if Respelled(site, domains) != site {
      var domain := domains[site.target.value];
      var found := Spellings(domain, site.value);
      FilterIn(domain, HasKey(Key(site.value)));
      assert found[0] in found;
      forall v | v in domain && Key(v) == Key(site.value) ensures v == found[0] {
        assert v in found;
      }
    }
  }

  lemma SettledSite(site: Site, domains: Domains)
    ensures Respelled(Respelled(site, domains), domains) == Respelled(site, domains)
    ensures IsUnmatched(Respelled(site, domains), domains) == IsUnmatched(site, domains)
    ensures IsUnmatched(site, domains) ==> Respelled(site, domains) == site
  {
    RespelledIsStored(site, domains);
  }

  /** Checking twice changes nothing more and reports the same unmatched literals. */
  lemma {:induction false} CheckTwice(sites: seq<Site>, domains: Domains)
    ensures var once := Map(sites, Respelling(domains));
      && Map(once, Respelling(domains)) == once
      && Filter(once, Unmatched(domains)) == Filter(sites, Unmatched(domains))
  {
    var once := Map(sites, Respelling(domains));
    forall i | 0 <= i < |once| ensures Respelled(once[i], domains) == once[i] {
      SettledSite(sites[i], domains);
    }
    assert Map(once, Respelling(domains)) == once;
    if sites != [] {
      CheckTwice(sites[1..], domains);
      SettledSite(sites[0], domains);
      assert once[1..] == Map(sites[1..], Respelling(domains));
    }
  }

  // Columns whose values only the database knows.

  /** Up to two different stored values the database's form selects. */
  predicate Answers(found: seq<string>, stored: set<string>, key: string) {
    && |found| <= 2 && (forall i, j :: 0 <= i < j < |found| ==> found[i] != found[j])
    && (forall v :: v in found ==> v in stored && DatabaseSelects(v, key))
    && (|found| < 2 ==> forall v :: v in stored && DatabaseSelects(v, key) ==> v in found)
  }

  /** A literal is rewritten exactly when it is unstored and one stored value alone has its key. */
  method Probe(value: string, stored: set<string>, found: seq<string>) returns (rewritten: Option<string>)
    requires Answers(found, stored, Key(value))
    ensures rewritten.Some? ==> value !in stored && rewritten.value in stored && Key(rewritten.value) == Key(value)
    ensures rewritten.Some? <==>
      value !in stored && Key(value) != [] && exists v :: v in stored && OnlyOne(v, stored, Key(value))
  {
    if value in stored {
      return None;
    }
    var key := Key(value);
    forall v ensures DatabaseSelects(v, key) <==> Key(v) == key {
      DatabaseSelectsKey(v, value);
    }
    var matches := if key == [] then [] else found;
    if |matches| == 1 {
      assert matches[0] in found;
      assert OnlyOne(matches[0], stored, key);
      return Some(matches[0]);
    }
    if |matches| == 2 {
      assert matches[0] in found && matches[1] in found;
    }
    rewritten := None;
  }

  predicate OnlyOne(v: string, stored: set<string>, key: string) {
    Key(v) == key && forall w :: w in stored && Key(w) == key ==> w == v
  }
}
