/** Recipient text (`services/notification_recipients.py`): a free-text field split into
    addresses, deduplicated without regard to case, and reduced to one canonical key. */
module Recipients {
  import opened Options
  import opened Sequences

  // ----- Characters -----

  /** The characters a string strip removes and a pattern's whitespace class matches. */
  predicate IsSpace(c: char) {
    var n := c as int;
    || 9 <= n <= 13 || 28 <= n <= 32 || n == 0x85 || n == 0xA0 || n == 0x1680
    || 0x2000 <= n <= 0x200A || n == 0x2028 || n == 0x2029 || n == 0x202F || n == 0x205F || n == 0x3000
  }

  predicate IsSep(c: char) {
    c == ',' || c == ';' || IsSpace(c)
  }

  function LowerChar(c: char): char {
    if 'A' <= c <= 'Z' then (c as int + 32) as char else c
  }

  function Lower(s: string): string {
    seq(|s|, i requires 0 <= i < |s| => LowerChar(s[i]))
  }

  function Lowers(xs: seq<string>): seq<string> {
    Map(Lower, xs)
  }

  function LStrip(s: string): string {
    if s != "" && IsSpace(s[0]) then LStrip(s[1..]) else s
  }

  function RStrip(s: string): string {
    if s != "" && IsSpace(s[|s| - 1]) then RStrip(s[..|s| - 1]) else s
  }

  function Strip(s: string): string {
    RStrip(LStrip(s))
  }

  // ----- Addresses -----

  /** One `@` at `i`, and a dot at `j` with something between them and something after it. */
  predicate AddressParts(e: string, i: nat, j: nat) {
    && 1 <= i && i + 2 <= j && j + 1 < |e|
    && e[i] == '@' && e[j] == '.'
    && (forall k :: 0 <= k < |e| && e[k] == '@' ==> k == i)
  }

  predicate IsAddress(e: string) {
    && (forall k :: 0 <= k < |e| ==> !IsSpace(e[k]))
    && (exists i, j :: 0 <= i < |e| && 0 <= j < |e| && AddressParts(e, i, j))
  }

  // ----- Splitting -----

  function TokenEnd(s: string): (n: nat)
    ensures n <= |s| && (n < |s| ==> IsSep(s[n]))
    ensures forall k :: 0 <= k < n ==> !IsSep(s[k])
  {
    if s == "" || IsSep(s[0]) then 0 else 1 + TokenEnd(s[1..])
  }

  function SepEnd(s: string): (n: nat)
    ensures n <= |s|
    ensures s != "" && IsSep(s[0]) ==> n > 0
  {
    if s == "" || !IsSep(s[0]) then 0 else 1 + SepEnd(s[1..])
  }

  /** Splitting on maximal runs of separators; a run at either end leaves an empty piece there. */
  function Split(s: string): seq<string>
    decreases |s|
  {
    var i := TokenEnd(s);
    if i == |s| then [s] else [s[..i]] + Split(s[i..][SepEnd(s[i..])..])
  }

  // ----- Deduplication -----

  function Dedupe(values: seq<string>): seq<string> {
    if |values| == 0 then []
    else
      var d := Dedupe(values[..|values| - 1]);
      var email := Strip(values[|values| - 1]);
      if !IsAddress(email) || Lower(email) in Lowers(d) then d else d + [email]
  }

  method DedupeEmails(values: seq<string>) returns (recipients: seq<string>)
    ensures recipients == Dedupe(values)
  {
    recipients := [];
    var seen: set<string> := {};
    for n := 0 to |values|
      invariant recipients == Dedupe(values[..n])
      invariant forall k :: k in seen <==> k in Lowers(recipients)
    {
      assert values[..n + 1][..n] == values[..n];
      var email := Strip(values[n]);
      if email == "" || !IsAddress(email) {
        continue;
      }
      var key := Lower(email);
      if key in seen {
        continue;
      }
      seen := seen + {key};
      MapStep(Lower, recipients + [email], |recipients|);
      assert (recipients + [email])[..|recipients|] == recipients;
      assert (recipients + [email])[..|recipients| + 1] == recipients + [email];
      recipients := recipients + [email];
    }
    assert values[..|values|] == values;
  }

  function Parse(value: Option<string>): seq<string> {
    if value == None || value == Some("") then [] else Dedupe(Split(value.value))
  }

  method ParseRecipients(value: Option<string>) returns (recipients: seq<string>)
    ensures recipients == Parse(value)
  {
    if value == None || value == Some("") {
      return [];
    }
    recipients := DedupeEmails(Split(value.value));
  }

  // ----- The key of a recipient list -----

  function Join(sep: string, xs: seq<string>): string {
    if |xs| == 0 then ""
    else if |xs| == 1 then xs[0]
    else Join(sep, xs[..|xs| - 1]) + sep + xs[|xs| - 1]
  }

  /** What is digested: the lower-cased addresses, sorted and joined. */
  function Canonical(recipients: seq<string>): string {
    Join("|", SortBy(StrLe, Lowers(recipients)))
  }

  function SyntheticId(digest: string -> string, recipients: seq<string>): string {
    "email-ingest:" + digest(Canonical(recipients))
  }

  /** The same addresses up to order and case. */
  ghost predicate SameAddresses(a: seq<string>, b: seq<string>) {
    multiset(Lowers(a)) == multiset(Lowers(b))
  }
}
