/** The strings the trigger builds: the fetch URL (function_app.py lines 21
    and 29) and the blob name (line 45). */
module Naming {
  import opened Wrappers
  import Timestamp

  const FlightsPath := "/flights"
  const KeyQuery := "?key="
  const BlobExtension := ".json"

  /** `s.rstrip(c)`: `s` without its run of trailing `c` characters. */
  function RStrip(s: string, c: char): (r: string)
    ensures r <= s
    ensures r == [] || r[|r| - 1] != c
    ensures forall i :: |r| <= i < |s| ==> s[i] == c
    decreases |s|
  {
    if |s| > 0 && s[|s| - 1] == c then RStrip(s[..|s| - 1], c) else s
  }

  /** The three properties in RStrip's contract pin its result down: any
      prefix that ends in something other than `c` and leaves only `c`
      characters behind is the stripped string. */
  lemma RStripUnique(s: string, c: char, r: string)
    requires r <= s
    requires r == [] || r[|r| - 1] != c
    requires forall i :: |r| <= i < |s| ==> s[i] == c
    ensures r == RStrip(s, c)
  {
    var q := RStrip(s, c);
    assert |q| == |r|;
  }

  /** Stripping twice is stripping once. */
  lemma RStripIdempotent(s: string, c: char)
    ensures RStrip(RStrip(s, c), c) == RStrip(s, c)
  {
  }

  /** How Python's f-string renders the secret: its text, or `None` when absent. */
  function SecretText(secret: Option<string>): (t: string)
    ensures secret.Some? ==> t == secret.value
    ensures secret.None? ==> t == "None"
  {
    match secret
    case Some(key) => key
    case None => "None"
  }

  /** The fetch URL: `API_URL + "/flights"`, then `f"?key={api_key}"` appended,
      plain concatenation without any escaping. */
  function FetchUrl(apiUrl: string, secret: Option<string>): (url: string)
    ensures |url| == |apiUrl| + 13 + |SecretText(secret)|
    ensures url[..|apiUrl|] == apiUrl
    ensures url[|apiUrl|..|apiUrl| + 13] == "/flights?key="
    ensures url[|apiUrl| + 13..] == SecretText(secret)
  {
    apiUrl + FlightsPath + KeyQuery + SecretText(secret)
  }

  /** The key can be read back from the URL: distinct keys give distinct URLs. */
  lemma FetchUrlInjective(apiUrl: string, k1: string, k2: string)
    requires FetchUrl(apiUrl, Some(k1)) == FetchUrl(apiUrl, Some(k2))
    ensures k1 == k2
  {
    var u := FetchUrl(apiUrl, Some(k1));
    assert k1 == u[|apiUrl| + 13..];
  }

  /** An absent secret is not rejected: the request goes out with the literal
      key `None`, indistinguishable from a secret whose value is `None`. */
  lemma AbsentSecretSendsNone(apiUrl: string)
    ensures FetchUrl(apiUrl, None) == apiUrl + "/flights?key=None"
    ensures FetchUrl(apiUrl, None) == FetchUrl(apiUrl, Some("None"))
  {
  }

  lemma FetchUrlExample()
    ensures FetchUrl("https://api.example.com", Some("test-api-key"))
         == "https://api.example.com/flights?key=test-api-key"
  {
  }

  /** `f"{path_prefix.rstrip('/')}/{timestamp}.json"`. */
  function BlobName(prefix: string, timestamp: string): (name: string)
    ensures |name| == |RStrip(prefix, '/')| + |timestamp| + 6
  {
    RStrip(prefix, '/') + "/" + timestamp + BlobExtension
  }

  /** Every blob name ends in `.json`, and the directory part before the
      separator never ends in `/`, so the name has no doubled slash there. */
  lemma BlobNameShape(prefix: string, timestamp: string)
    ensures var name := BlobName(prefix, timestamp);
      name[|name| - 5..] == ".json" &&
      name[..|RStrip(prefix, '/')|] == RStrip(prefix, '/') &&
      name[|RStrip(prefix, '/')|] == '/' &&
      (|RStrip(prefix, '/')| == 0 || name[|RStrip(prefix, '/')| - 1] != '/')
  {
    var p := RStrip(prefix, '/');
    var name := BlobName(prefix, timestamp);
    var rest := "/" + timestamp + BlobExtension;
    assert name == p + rest;
    assert name[|p|] == rest[0];
    assert name[|name| - 5..] == rest[|rest| - 5..];
  }

  /** Trailing slashes on the prefix do not change the blob name. */
  lemma BlobNameIgnoresTrailingSlashes(prefix: string, timestamp: string)
    ensures BlobName(prefix + "/", timestamp) == BlobName(prefix, timestamp)
    ensures BlobName(RStrip(prefix, '/'), timestamp) == BlobName(prefix, timestamp)
  {
    var s := prefix + "/";
    assert s[..|s| - 1] == prefix;
  }

  /** A blob name for a formatted timestamp splits back into the stripped
      prefix, the separator, the timestamp and the extension. */
  lemma {:induction false} BlobNameDecomposes(prefix: string, t: Timestamp.DateTime)
    requires Timestamp.IsFormattable(t)
    ensures var p, name := RStrip(prefix, '/'), BlobName(prefix, Timestamp.Format(t));
      |name| == |p| + 22 &&
      name[..|p|] == p && name[|p|] == '/' &&
      Timestamp.Parse(name[|p| + 1..|p| + 17]) == Some(t) &&
      name[|p| + 17..] == ".json"
  {
    var p, ts := RStrip(prefix, '/'), Timestamp.Format(t);
    var name := BlobName(prefix, ts);
    assert name == p + "/" + ts + BlobExtension;
    assert name[|p| + 1..|p| + 17] == ts;
    Timestamp.ParseFormat(t);
  }

  /** Objects written at different seconds, or under prefixes that differ once
      stripped, get different names: the name determines both. */
  lemma {:induction false} BlobNameInjective(p1: string, t1: Timestamp.DateTime, p2: string, t2: Timestamp.DateTime)
    requires Timestamp.IsFormattable(t1) && Timestamp.IsFormattable(t2)
    requires BlobName(p1, Timestamp.Format(t1)) == BlobName(p2, Timestamp.Format(t2))
    ensures RStrip(p1, '/') == RStrip(p2, '/') && t1 == t2
  {
    BlobNameDecomposes(p1, t1);
    BlobNameDecomposes(p2, t2);
  }

  /** The default prefix: `flights/20231110T120000Z.json`. */
  lemma BlobNameExample()
    ensures BlobName("flights", Timestamp.Format(Timestamp.DateTime(2023, 11, 10, 12, 0, 0)))
         == "flights/20231110T120000Z.json"
  {
    Timestamp.FormatExample();
    assert RStrip("flights", '/') == "flights";
  }
}
