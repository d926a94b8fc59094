/** Recursive redaction of event metadata: values under sensitive keys and strings that look like
    card numbers are replaced by markers, everything else is kept. */
module Redaction {

  datatype Entry = Entry(key: string, value: Json)

  datatype Json =
    | Obj(entries: seq<Entry>)
    | Arr(items: seq<Json>)
    | Str(text: string)
    | Number(n: int)
    | Boolean(b: bool)
    | Null

  const SENSITIVE_WORDS := [
    "card_number", "number", "cvv", "cvc", "security_code", "pin", "password", "secret", "api_key",
    "token", "authorization", "cookie"]

  const MARKER := "[REDACTED]"
  const PAN_MARKER := "[REDACTED_PAN]"

  // --------------------------------------------------------------------- keys

  function LowerChar(c: char): char {
    if 'A' <= c <= 'Z' then (c as int - 'A' as int + 'a' as int) as char else c
  }

  function Lower(s: string): string {
    seq(|s|, i requires 0 <= i < |s| => LowerChar(s[i]))
  }

  predicate Contains(s: string, word: string) {
    exists i :: 0 <= i <= |s| && word <= s[i..]
  }

  predicate Sensitive(key: string) {
    exists k :: 0 <= k < |SENSITIVE_WORDS| && Contains(Lower(key), SENSITIVE_WORDS[k])
  }

  // ------------------------------------------------------------- card numbers

  predicate IsDigit(c: char) {
    '0' <= c <= '9'
  }

  predicate IsWordChar(c: char) {
    IsDigit(c) || 'a' <= c <= 'z' || 'A' <= c <= 'Z' || c == '_'
  }

  /** A word boundary lies before position k. */
  predicate Boundary(s: string, k: nat)
    requires k <= |s|
  {
    (0 < k && IsWordChar(s[k - 1])) != (k < |s| && IsWordChar(s[k]))
  }

  function Digits(s: string): nat {
    if s == "" then 0 else (if IsDigit(s[0]) then 1 else 0) + Digits(s[1..])
  }

  /** 13 to 19 digits, each followed by any blanks and dashes, between word boundaries. */
  predicate IsPan(s: string, from: nat, to: nat)
    requires from <= to <= |s|
  {
    && Boundary(s, from) && Boundary(s, to)
    && from < to && IsDigit(s[from])
    && (forall k :: from <= k < to ==> IsDigit(s[k]) || s[k] == ' ' || s[k] == '-')
    && 13 <= Digits(s[from..to]) <= 19
  }

  predicate HasPan(s: string) {
    exists from, to :: 0 <= from <= to <= |s| && IsPan(s, from, to)
  }

  // ------------------------------------------------------------ what is hidden

  /** The same letter, whatever its case in the key. */
  predicate Reads(c: char, letter: char) {
    c == letter || ('A' <= c <= 'Z' && c as int + 32 == letter as int)
  }

  predicate Mentions(key: string, word: string) {
    exists i :: 0 <= i <= |key| - |word| && MentionsAt(key, word, i)
  }

  predicate MentionsAt(key: string, word: string, i: nat)
    requires i + |word| <= |key|
  {
    forall j :: 0 <= j < |word| ==> Reads(key[i + j], word[j])
  }

  lemma ContainsExactly(key: string, word: string)
    requires forall j :: 0 <= j < |word| ==> !('A' <= word[j] <= 'Z')
    ensures Contains(Lower(key), word) <==> Mentions(key, word)
  {
    if i :| 0 <= i <= |key| && word <= Lower(key)[i..] {
      forall j | 0 <= j < |word| ensures Reads(key[i + j], word[j]) {
        assert Lower(key)[i..][j] == word[j];
      }
      assert MentionsAt(key, word, i);
    }
    if i :| 0 <= i <= |key| - |word| && MentionsAt(key, word, i) {
      assert Lower(key)[i..][..|word|] == word;
    }
  }

  /** A key is sensitive exactly when it mentions one of these words, in whatever case. */
  lemma SensitiveExactly(key: string)
    ensures Sensitive(key) <==>
              || Mentions(key, "card_number") || Mentions(key, "number") || Mentions(key, "cvv") || Mentions(key, "cvc")
              || Mentions(key, "security_code") || Mentions(key, "pin") || Mentions(key, "password") || Mentions(key, "secret")
              || Mentions(key, "api_key") || Mentions(key, "token") || Mentions(key, "authorization") || Mentions(key, "cookie")
  {
    hide Contains, Mentions, Lower;
    forall k | 0 <= k < |SENSITIVE_WORDS| ensures Contains(Lower(key), SENSITIVE_WORDS[k]) <==> Mentions(key, SENSITIVE_WORDS[k]) {
      ContainsExactly(key, SENSITIVE_WORDS[k]);
    }
    var words := SENSITIVE_WORDS;
    assert words[0] == "card_number" && words[1] == "number" && words[2] == "cvv" && words[3] == "cvc";
    assert words[4] == "security_code" && words[5] == "pin" && words[6] == "password" && words[7] == "secret";
    assert words[8] == "api_key" && words[9] == "token" && words[10] == "authorization" && words[11] == "cookie";
  }

  predicate IsWordy(c: char) {
    '0' <= c <= '9' || 'A' <= c <= 'Z' || c == '_' || 'a' <= c <= 'z'
  }

  predicate Edge(s: string, k: nat)
    requires k <= |s|
  {
    (k > 0 && IsWordy(s[k - 1])) <==> !(k < |s| && IsWordy(s[k]))
  }

  /** From position `i` on: blanks and dashes, then `n` digits each followed by any of these, and then
      the edge of a word. */
  predicate Rest(s: string, i: nat, n: nat)
    requires i <= |s|
    decreases |s| - i
  {
    || (n == 0 && Edge(s, i))
    || (i < |s| && s[i] in {' ', '-'} && Rest(s, i + 1, n))
    || (i < |s| && n > 0 && '0' <= s[i] <= '9' && Rest(s, i + 1, n - 1))
  }

  /** The regular expression of a card number matches `n` digits from position `i` on. */
  predicate Matches(s: string, i: nat, n: nat) {
    i < |s| && n > 0 && Edge(s, i) && '0' <= s[i] <= '9' && Rest(s, i + 1, n - 1)
  }

  lemma {:induction false} NumberMatches(s: string, i: nat, to: nat)
    requires i <= to <= |s| && Boundary(s, to)
    requires forall k :: i <= k < to ==> IsDigit(s[k]) || s[k] == ' ' || s[k] == '-'
    ensures Rest(s, i, Digits(s[i..to]))
    decreases |s| - i
  {
    if i < to {
      NumberMatches(s, i + 1, to);
      assert s[i..to][1..] == s[i + 1..to];
    }
  }

  lemma {:induction false} MatchIsNumber(s: string, i: nat, n: nat) returns (to: nat)
    requires i <= |s| && Rest(s, i, n)
    ensures i <= to <= |s| && Boundary(s, to) && Digits(s[i..to]) == n
    ensures forall k :: i <= k < to ==> IsDigit(s[k]) || s[k] == ' ' || s[k] == '-'
    decreases |s| - i
  {
    if n == 0 && Edge(s, i) {
      to := i;
    } else {
      to := MatchIsNumber(s, i + 1, if IsDigit(s[i]) then n - 1 else n);
      assert s[i..to][1..] == s[i + 1..to];
    }
  }

  /** A string holds a card number exactly when the expression matches 13 to 19 digits somewhere. */
  lemma CardNumbersMatch(s: string)
    ensures HasPan(s) <==> exists i: nat, n: nat :: 13 <= n <= 19 && Matches(s, i, n)
  {
    if from, to :| 0 <= from <= to <= |s| && IsPan(s, from, to) {
      NumberMatches(s, from + 1, to);
      assert s[from..to][1..] == s[from + 1..to];
      assert Matches(s, from, Digits(s[from..to]));
    }
    if i: nat, n: nat :| 13 <= n <= 19 && Matches(s, i, n) {
      var to := MatchIsNumber(s, i + 1, n - 1);
      assert s[i..to][1..] == s[i + 1..to];
      assert IsPan(s, i, to);
    }
  }

  /** So a string of digits alone is hidden exactly when there are 13 to 19 of them. */
  lemma PlainNumbersAreHiddenExactly(s: string)
    requires forall c <- s :: '0' <= c <= '9'
    ensures HasPan(s) <==> 13 <= |s| <= 19
  {
    forall k | 0 <= k < |s| ensures IsDigit(s[k]) && IsWordChar(s[k]) {
      assert s[k] in s;
    }
    assert forall k :: 0 < k < |s| ==> !Boundary(s, k);
    AllDigits(s);
    if from, to :| 0 <= from <= to <= |s| && IsPan(s, from, to) {
      assert from == 0 && to == |s| && s[from..to] == s;
    }
    if 13 <= |s| <= 19 {
      assert s[0..|s|] == s && IsPan(s, 0, |s|);
    }
  }

  lemma {:induction false} AllDigits(s: string)
    requires forall c <- s :: '0' <= c <= '9'
    ensures Digits(s) == |s|
  {
    if s != "" {
      assert s[0] in s && forall c <- s[1..] :: c in s;
      AllDigits(s[1..]);
    }
  }

  // ---------------------------------------------------------------- redaction

  function Redacted(data: Json): Json {
    match data
    case Obj(entries) =>
      Obj(seq(|entries|, k requires 0 <= k < |entries| =>
        Entry(entries[k].key, if Sensitive(entries[k].key) then Str(MARKER) else Redacted(entries[k].value))))
    case Arr(items) => Arr(seq(|items|, k requires 0 <= k < |items| => Redacted(items[k])))
    case Str(text) => if HasPan(text) then Str(PAN_MARKER) else data
    case Number(_) => data
    case Boolean(_) => data
    case Null => data
  }

  method SanitizeMetadata(data: Json) returns (cleaned: Json)
    ensures cleaned == Redacted(data)
    decreases data
  {
    match data {
      case Obj(entries) =>
        var kept: seq<Entry> := [];
        for k := 0 to |entries|
          invariant |kept| == k && forall j :: 0 <= j < k ==> kept[j] == Redacted(data).entries[j]
        {
          if Sensitive(entries[k].key) {
            kept := kept + [Entry(entries[k].key, Str(MARKER))];
          } else {
            var value := SanitizeMetadata(entries[k].value);
            kept := kept + [Entry(entries[k].key, value)];
          }
        }
        cleaned := Obj(kept);
      case Arr(items) =>
        var kept: seq<Json> := [];
        for k := 0 to |items|
          invariant |kept| == k && forall j :: 0 <= j < k ==> kept[j] == Redacted(data).items[j]
        {
          var item := SanitizeMetadata(items[k]);
          kept := kept + [item];
        }
        cleaned := Arr(kept);
      case Str(text) =>
        cleaned := if HasPan(text) then Str(PAN_MARKER) else data;
      case Number(_) =>
        cleaned := data;
      case Boolean(_) =>
        cleaned := data;
      case Null =>
        cleaned := data;
    }
  }

  // --------------------------------------------------------------- properties

  /** At no depth is there a card number, or a sensitive key without the marker. */
  predicate Clean(data: Json) {
    match data
    case Obj(entries) =>
      forall k :: 0 <= k < |entries| ==>
        if Sensitive(entries[k].key) then entries[k].value == Str(MARKER) else Clean(entries[k].value)
    case Arr(items) => forall k :: 0 <= k < |items| ==> Clean(items[k])
    case Str(text) => !HasPan(text)
    case Number(_) => true
    case Boolean(_) => true
    case Null => true
  }

  lemma MarkersAreNoCardNumbers()
    ensures !HasPan(MARKER) && !HasPan(PAN_MARKER)
  {
    assert forall k :: 0 <= k < |MARKER| ==> !IsDigit(MARKER[k]);
    assert forall k :: 0 <= k < |PAN_MARKER| ==> !IsDigit(PAN_MARKER[k]);
  }

  /** What redaction returns is clean, whatever went in. */
  lemma {:induction false} RedactionCleans(data: Json)
    ensures Clean(Redacted(data))
  {
    MarkersAreNoCardNumbers();
    match data {
      case Obj(entries) =>
        forall k | 0 <= k < |entries| && !Sensitive(entries[k].key) ensures Clean(Redacted(entries[k].value)) {
          RedactionCleans(entries[k].value);
        }
      case Arr(items) =>
        forall k | 0 <= k < |items| ensures Clean(Redacted(items[k])) {
          RedactionCleans(items[k]);
        }
      case _ =>
    }
  }

  /** Redaction leaves data alone exactly when it is clean already. */
  lemma {:induction false} CleanDataIsFixed(data: Json)
    ensures Redacted(data) == data <==> Clean(data)
  {
    if Clean(data) {
      CleanIsKept(data);
    } else {
      RedactionCleans(data);
    }
  }

  lemma {:induction false} CleanIsKept(data: Json)
    requires Clean(data)
    ensures Redacted(data) == data
  {
    match data {
      case Obj(entries) =>
        forall k | 0 <= k < |entries| ensures Redacted(data).entries[k] == entries[k] {
          if !Sensitive(entries[k].key) {
            CleanIsKept(entries[k].value);
          }
        }
        assert Redacted(data).entries == entries;
      case Arr(items) =>
        forall k | 0 <= k < |items| ensures Redacted(data).items[k] == items[k] {
          CleanIsKept(items[k]);
        }
        assert Redacted(data).items == items;
      case _ =>
    }
  }

  /** Redacting twice is redacting once. */
  lemma RedactionIsIdempotent(data: Json)
    ensures Redacted(Redacted(data)) == Redacted(data)
  {
    RedactionCleans(data);
    CleanDataIsFixed(Redacted(data));
  }

  /** The value at a path of positions, if the path leads anywhere. */
  function Find(data: Json, path: seq<nat>): (r: (bool, Json))
    decreases path
  {
    if path == [] then (true, data)
    else if data.Obj? && path[0] < |data.entries| then Find(data.entries[path[0]].value, path[1..])
    else if data.Arr? && path[0] < |data.items| then Find(data.items[path[0]], path[1..])
    else (false, Null)
  }

  /** Whether a path passes a sensitive key. */
  predicate Hidden(data: Json, path: seq<nat>)
    decreases path
  {
    path != [] &&
    if data.Obj? && path[0] < |data.entries| then
      Sensitive(data.entries[path[0]].key) || Hidden(data.entries[path[0]].value, path[1..])
    else data.Arr? && path[0] < |data.items| && Hidden(data.items[path[0]], path[1..])
  }

  /** Off the sensitive keys nothing moves: every path leads to the redacted form of what it led
      to, with the same keys, lengths and nesting. */
  lemma {:induction false} PlacesAreKept(data: Json, path: seq<nat>)
    requires !Hidden(data, path)
    ensures Find(Redacted(data), path).0 == Find(data, path).0
    ensures Find(data, path).0 ==> Find(Redacted(data), path).1 == Redacted(Find(data, path).1)
    decreases path
  {
    if path != [] {
      if data.Obj? && path[0] < |data.entries| {
        PlacesAreKept(data.entries[path[0]].value, path[1..]);
      } else if data.Arr? && path[0] < |data.items| {
        PlacesAreKept(data.items[path[0]], path[1..]);
      }
    }
  }

  function KeysOf(entries: seq<Entry>): seq<string> {
    seq(|entries|, k requires 0 <= k < |entries| => entries[k].key)
  }

  /** So a string, number or flag that is neither under a sensitive key nor a card number comes
      through unchanged, and an object keeps its keys in order. */
  lemma HarmlessValuesComeThrough(data: Json, path: seq<nat>)
    requires !Hidden(data, path) && Find(data, path).0
    ensures var before, after := Find(data, path).1, Find(Redacted(data), path).1;
      && Find(Redacted(data), path).0
      && (!before.Obj? && !before.Arr? && (before.Str? ==> !HasPan(before.text)) ==> after == before)
      && (before.Str? && HasPan(before.text) ==> after == Str("[REDACTED_PAN]"))
      && (before.Arr? ==> after.Arr? && |after.items| == |before.items|)
      && (before.Obj? ==> after.Obj? && KeysOf(after.entries) == KeysOf(before.entries))
  {
    PlacesAreKept(data, path);
  }

  /** And what stood under a sensitive key cannot be reached: the path ends at a marker. */
  lemma {:induction false} HiddenValuesAreGone(data: Json, path: seq<nat>) returns (cut: nat)
    requires Hidden(data, path)
    ensures 0 < cut <= |path| && Find(Redacted(data), path[..cut]) == (true, Str("[REDACTED]"))
    ensures cut < |path| ==> !Find(Redacted(data), path).0
    decreases path
  {
    if data.Obj? && Sensitive(data.entries[path[0]].key) {
      cut := 1;
      assert path[..1][1..] == [];
      assert path[..1][0] == path[0];
      assert Redacted(data).entries[path[0]].value == Str(MARKER);
    } else {
      var next := if data.Obj? then data.entries[path[0]].value else data.items[path[0]];
      var rest := HiddenValuesAreGone(next, path[1..]);
      cut := rest + 1;
      assert path[..cut][1..] == path[1..][..rest];
    }
  }
}
