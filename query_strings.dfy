/** The query strings the panel sends to the verification service, and how a receiver
    splits them back into fields (`key=value` pairs joined by `&`, no percent-encoding). */
module QueryStrings {
  import opened JsValues

  /** `key=value`, one field of a query string. */
  function Pair(key: string, value: string): string {
    key + "=" + value
  }

  /** The status-check query `chainId=…&account=…&moduleName=…`. */
  function CheckQuery(chainId: string, account: Option<string>, moduleName: Option<string>): string {
    Pair("chainId", chainId) + "&" + Pair("account", Interpolate(account))
      + "&" + Pair("moduleName", Interpolate(moduleName))
  }

  /** The verify query `chainId=…&account=…&moduleName=…&timestamp=…`, whose last field is a
      cache-busting millisecond timestamp. */
  function VerifyQuery(chainId: string, account: Option<string>, moduleName: Option<string>, timestamp: nat): string {
    Pair("chainId", chainId) + "&" + Pair("account", Interpolate(account))
      + "&" + Pair("moduleName", Interpolate(moduleName)) + "&" + Pair("timestamp", DecimalString(timestamp))
  }

  // ---- the receiving side: an independent reading of a query string ----

  /** Splits `s` at every occurrence of `sep`. */
  function Split(s: string, sep: char): (parts: seq<string>)
    ensures |parts| >= 1
  {
    if s == [] then [""]
    else if s[0] == sep then [""] + Split(s[1..], sep)
    else var rest := Split(s[1..], sep); [[s[0]] + rest[0]] + rest[1..]
  }

  /** Joins `parts` with `sep` between neighbours. */
  function Join(parts: seq<string>, sep: char): string
    requires |parts| >= 1
  {
    if |parts| == 1 then parts[0] else parts[0] + [sep] + Join(parts[1..], sep)
  }

  /** One `key=value` field, split at its first `=`; a field without `=` has an empty value. */
  function Field(part: string): (string, string) {
    if part == [] then ("", "")
    else if part[0] == '=' then ("", part[1..])
    else var (k, v) := Field(part[1..]); ([part[0]] + k, v)
  }

  function Fields(parts: seq<string>): (fs: seq<(string, string)>)
    ensures |fs| == |parts|
  {
    if parts == [] then [] else [Field(parts[0])] + Fields(parts[1..])
  }

  /** The fields a receiver reads from a query string. */
  function ParseQuery(q: string): seq<(string, string)> {
    Fields(Split(q, '&'))
  }

  lemma {:induction false} SplitWithoutSeparator(a: string, sep: char)
    requires sep !in a
    ensures Split(a, sep) == [a]
  {
    if a != [] {
      SplitWithoutSeparator(a[1..], sep);
      assert [a[0]] + a[1..] == a;
    }
  }

  lemma {:induction false} SplitAtFirstSeparator(a: string, sep: char, b: string)
    requires sep !in a
    ensures Split(a + [sep] + b, sep) == [a] + Split(b, sep)
  {
    if a == [] {
      assert a + [sep] + b == [sep] + b;
      assert ([sep] + b)[1..] == b;
    } else {
      var s := a + [sep] + b;
      assert s[0] == a[0];
      assert s[1..] == a[1..] + [sep] + b;
      SplitAtFirstSeparator(a[1..], sep, b);
      assert [a[0]] + a[1..] == a;
    }
  }

  /** Splitting undoes joining when no part contains the separator. */
  lemma {:induction false} SplitJoin(parts: seq<string>, sep: char)
    requires |parts| >= 1
    requires forall i :: 0 <= i < |parts| ==> sep !in parts[i]
    ensures Split(Join(parts, sep), sep) == parts
  {
    if |parts| == 1 {
      SplitWithoutSeparator(parts[0], sep);
    } else {
      SplitJoin(parts[1..], sep);
      SplitAtFirstSeparator(parts[0], sep, Join(parts[1..], sep));
      assert [parts[0]] + parts[1..] == parts;
    }
  }

  /** A field whose key has no `=` reads back as that key and value, whatever the value holds. */
  lemma {:induction false} FieldOfPair(key: string, value: string)
    requires '=' !in key
    ensures Field(Pair(key, value)) == (key, value)
  {
    var p := Pair(key, value);
    if key == [] {
      assert p == ['='] + value;
      assert p[1..] == value;
    } else {
      assert p[1..] == Pair(key[1..], value);
      FieldOfPair(key[1..], value);
      assert [key[0]] + key[1..] == key;
    }
  }

  function PairsOf(fs: seq<(string, string)>): (ps: seq<string>)
    ensures |ps| == |fs| && forall i :: 0 <= i < |fs| ==> ps[i] == Pair(fs[i].0, fs[i].1)
  {
    if fs == [] then [] else [Pair(fs[0].0, fs[0].1)] + PairsOf(fs[1..])
  }

  /** Fields whose keys hold neither `=` nor `&` and whose values hold no `&` are read back
      exactly as they were written. */
  lemma ParseJoinedPairs(fs: seq<(string, string)>)
    requires |fs| >= 1
    requires forall i :: 0 <= i < |fs| ==> '=' !in fs[i].0 && '&' !in fs[i].0 && '&' !in fs[i].1
    ensures ParseQuery(Join(PairsOf(fs), '&')) == fs
  {
    var ps := PairsOf(fs);
    forall i | 0 <= i < |ps| ensures '&' !in ps[i] {
      assert ps[i] == fs[i].0 + "=" + fs[i].1;
    }
    SplitJoin(ps, '&');
    FieldsOfPairs(fs);
  }

  lemma {:induction false} FieldsOfPairs(fs: seq<(string, string)>)
    requires forall i :: 0 <= i < |fs| ==> '=' !in fs[i].0
    ensures Fields(PairsOf(fs)) == fs
  {
    if fs != [] {
      FieldOfPair(fs[0].0, fs[0].1);
      FieldsOfPairs(fs[1..]);
      assert PairsOf(fs)[1..] == PairsOf(fs[1..]);
    }
  }

  lemma JoinThree(p0: string, p1: string, p2: string)
    ensures Join([p0, p1, p2], '&') == p0 + "&" + p1 + "&" + p2
  {
    var parts := [p0, p1, p2];
    assert parts[1..] == [p1, p2];
    assert parts[1..][1..] == [p2];
    assert Join([p2], '&') == p2;
    assert Join([p1, p2], '&') == p1 + "&" + p2;
  }

  lemma JoinFour(p0: string, p1: string, p2: string, p3: string)
    ensures Join([p0, p1, p2, p3], '&') == p0 + "&" + p1 + "&" + p2 + "&" + p3
  {
    var parts := [p0, p1, p2, p3];
    assert parts[1..] == [p1, p2, p3];
    JoinThree(p1, p2, p3);
  }

  /** A receiver reads back exactly the three fields of a status-check query, provided no
      interpolated value contains `&` (the source does not percent-encode them). */
  lemma CheckQueryParses(chainId: string, account: Option<string>, moduleName: Option<string>)
    requires '&' !in chainId && '&' !in Interpolate(account) && '&' !in Interpolate(moduleName)
    ensures ParseQuery(CheckQuery(chainId, account, moduleName))
         == [("chainId", chainId), ("account", Interpolate(account)), ("moduleName", Interpolate(moduleName))]
  {
    var fs := [("chainId", chainId), ("account", Interpolate(account)), ("moduleName", Interpolate(moduleName))];
    var ps := PairsOf(fs);
    assert ps == [ps[0], ps[1], ps[2]];
    JoinThree(ps[0], ps[1], ps[2]);
    ParseJoinedPairs(fs);
  }

  lemma DigitsAreNotSeparators(n: nat)
    ensures '&' !in DecimalString(n)
  {
  }

  /** A verify query carries the status-check fields followed by a timestamp field that
      holds the timestamp's decimal digits. */
  lemma VerifyQueryParses(chainId: string, account: Option<string>, moduleName: Option<string>, timestamp: nat)
    requires '&' !in chainId && '&' !in Interpolate(account) && '&' !in Interpolate(moduleName)
    ensures VerifyQuery(chainId, account, moduleName, timestamp)
         == CheckQuery(chainId, account, moduleName) + "&" + Pair("timestamp", DecimalString(timestamp))
    ensures ParseQuery(VerifyQuery(chainId, account, moduleName, timestamp))
         == ParseQuery(CheckQuery(chainId, account, moduleName)) + [("timestamp", DecimalString(timestamp))]
  {
    var t := DecimalString(timestamp);
    DigitsAreNotSeparators(timestamp);
    var check := [("chainId", chainId), ("account", Interpolate(account)), ("moduleName", Interpolate(moduleName))];
    var fs := check + [("timestamp", t)];
    var ps := PairsOf(fs);
    assert ps == [ps[0], ps[1], ps[2], ps[3]];
    JoinFour(ps[0], ps[1], ps[2], ps[3]);
    assert Join(ps, '&') == VerifyQuery(chainId, account, moduleName, timestamp);
    assert fs[3].0 == "timestamp" && fs[3].1 == t;
    assert forall i :: 0 <= i < 3 ==> fs[i] == check[i];
    ParseJoinedPairs(fs);
    CheckQueryParses(chainId, account, moduleName);
  }
}
