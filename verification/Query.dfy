/** Rewriting the values of sensitive parameters in a raw query string. */
module Query {

  datatype Result = Ok(text: string) | Err

  /** url.QueryUnescape and the sensitive-name test: library text processing and
      a word list, of which nothing is used but that they are functions. */
  datatype Rules = Rules(unescape: string -> Result, sensitive: string -> bool)

  const REPLACEMENT := "[REDACTED]"

  predicate Separator(c: char) {
    c == '&' || c == ';'
  }

  predicate Plain(part: string) {
    forall i | 0 <= i < |part| :: !Separator(part[i])
  }

  // ----- one part -----

  /** The text before the first equals sign. */
  function NameOf(part: string): (name: string)
    ensures name <= part && '=' !in name
    ensures name == part || part[|name|] == '='
  {
    if part == "" || part[0] == '=' then "" else [part[0]] + NameOf(part[1..])
  }

  predicate Sensitive(part: string, rules: Rules) {
    var decoded := rules.unescape(NameOf(part));
    rules.sensitive(if decoded.Ok? then decoded.text else NameOf(part))
  }

  function RedactPart(part: string, rules: Rules): string {
    if Sensitive(part, rules) then NameOf(part) + "=" + REPLACEMENT else part
  }

  lemma {:induction false} NameOfJoined(name: string, value: string)
    requires '=' !in name
    ensures NameOf(name + "=" + value) == name
  {
    var part := name + "=" + value;
    if name != "" {
      NameOfJoined(name[1..], value);
      assert part[1..] == name[1..] + "=" + value;
    }
  }

  lemma PartRedacted(part: string, rules: Rules)
    ensures NameOf(RedactPart(part, rules)) == NameOf(part)
    ensures RedactPart(RedactPart(part, rules), rules) == RedactPart(part, rules)
    ensures Plain(part) ==> Plain(RedactPart(part, rules))
  {
    NameOfJoined(NameOf(part), REPLACEMENT);
  }

  /** A part is sensitive if its name is once it is decoded, or as it stands when it
      cannot be decoded. */
  lemma SensitiveSpelled(name: string, value: string, rules: Rules)
    requires forall i | 0 <= i < |name| :: name[i] != '='
    ensures Sensitive(name + "=" + value, rules) <==>
      match rules.unescape(name) case Ok(decoded) => rules.sensitive(decoded) case Err => rules.sensitive(name)
    ensures Sensitive(name, rules) <==> Sensitive(name + "=" + value, rules)
    ensures Sensitive(name, rules) ==>
      RedactPart(name, rules) == RedactPart(name + "=" + value, rules) == name + "=" + "[REDACTED]"
    ensures !Sensitive(name, rules) ==> RedactPart(name, rules) == name
  {
    assert '=' !in name;
    NameOfJoined(name, value);
    assert NameOf(name) == name;
  }

  // ----- the structure of a query -----

  /** A query is its parts with one separator between neighbours. */
  datatype Split = Split(parts: seq<string>, separators: seq<char>)

  predicate WellFormed(s: Split) {
    && |s.parts| == |s.separators| + 1
    && (forall i | 0 <= i < |s.parts| :: Plain(s.parts[i]))
    && forall i | 0 <= i < |s.separators| :: Separator(s.separators[i])
  }

  function Join(s: Split): string
    requires |s.parts| == |s.separators| + 1
    decreases |s.parts|
  {
    var n := |s.separators|;
    if n == 0 then s.parts[0]
    else Join(Split(s.parts[..n], s.separators[..n-1])) + [s.separators[n-1]] + s.parts[n]
  }

  /** The split of a query that goes on with one more character. */
  function Grow(s: Split, c: char): (t: Split)
    requires |s.parts| > 0
    ensures WellFormed(s) ==> WellFormed(t)
  {
    if Separator(c) then Split(s.parts + [""], s.separators + [c]) else Extended(s, [c])
  }

  function Extended(s: Split, text: string): Split
    requires |s.parts| > 0
  {
    var last := |s.parts| - 1;
    Split(s.parts[..last] + [s.parts[last] + text], s.separators)
  }

  function Parse(query: string): (s: Split)
    ensures WellFormed(s)
  {
    if query == "" then Split([""], []) else Grow(Parse(query[..|query|-1]), query[|query|-1])
  }

  lemma JoinGrow(s: Split, c: char)
    requires WellFormed(s)
    ensures Join(Grow(s, c)) == Join(s) + [c]
  {
    var t, last := Grow(s, c), |s.parts| - 1;
    if Separator(c) {
      assert t.parts[..|t.separators|] == s.parts && t.separators[..|t.separators|-1] == s.separators;
    } else {
      assert t.parts[..last] == s.parts[..last];
    }
  }

  /** The parts are what lies between ampersands and semicolons. */
  lemma PartsSpelled(query: string, i: nat)
    ensures |Parse(query).parts| == |Parse(query).separators| + 1
    ensures i < |Parse(query).parts| ==>
      forall j | 0 <= j < |Parse(query).parts[i]| :: Parse(query).parts[i][j] != '&' && Parse(query).parts[i][j] != ';'
    ensures i < |Parse(query).separators| ==> Parse(query).separators[i] == '&' || Parse(query).separators[i] == ';'
  {
  }

  /** Splitting and rejoining gives the query back. */
  lemma {:induction false} JoinParse(query: string)
    ensures Join(Parse(query)) == query
  {
    if query != "" {
      var n := |query| - 1;
      JoinParse(query[..n]);
      JoinGrow(Parse(query[..n]), query[n]);
      assert query == query[..n] + [query[n]];
    }
  }

  lemma ParseOne(query: string, c: char)
    ensures Parse(query + [c]) == Grow(Parse(query), c)
  {
    assert (query + [c])[..|query|] == query;
  }

  lemma ExtendedTwice(s: Split, a: string, b: string)
    requires |s.parts| > 0
    ensures Extended(Extended(s, a), b) == Extended(s, a + b)
  {
    assert s.parts[|s.parts|-1] + a + b == s.parts[|s.parts|-1] + (a + b);
  }

  lemma ExtendedByNothing(s: Split)
    requires |s.parts| > 0
    ensures Extended(s, "") == s
  {
    assert s.parts[|s.parts|-1] + "" == s.parts[|s.parts|-1];
  }

  lemma ParseAppendsOne(query: string, front: string, c: char)
    requires Parse(query + front) == Extended(Parse(query), front) && !Separator(c)
    ensures Parse(query + (front + [c])) == Extended(Parse(query), front + [c])
  {
    ParseOne(query + front, c);
    ExtendedTwice(Parse(query), front, [c]);
    assert query + (front + [c]) == (query + front) + [c];
  }

  lemma {:induction false} ParseAppends(query: string, text: string)
    requires Plain(text)
    ensures Parse(query + text) == Extended(Parse(query), text)
    decreases |text|
  {
    if text == "" {
      ExtendedByNothing(Parse(query));
      assert query + text == query;
    } else {
      var n := |text| - 1;
      ParseAppends(query, text[..n]);
      ParseAppendsOne(query, text[..n], text[n]);
      assert text == text[..n] + [text[n]];
    }
  }

  /** And there is only one way to split it. */
  lemma {:induction false} ParseJoin(s: Split)
    requires WellFormed(s)
    ensures Parse(Join(s)) == s
    decreases |s.parts|
  {
    var n := |s.separators|;
    if n == 0 {
      ParseAppends("", s.parts[0]);
      assert "" + s.parts[0] == s.parts[0];
      assert s.parts == [s.parts[0]];
    } else {
      ParseJoin(Split(s.parts[..n], s.separators[..n-1]));
      ParseJoinLast(s);
    }
  }

  lemma GrowExtended(front: Split, c: char, text: string)
    requires WellFormed(front) && Separator(c)
    ensures Extended(Grow(front, c), text) == Split(front.parts + [text], front.separators + [c])
  {
    assert (front.parts + [""])[..|front.parts|] == front.parts;
    assert "" + text == text;
  }

  lemma ParseOnePart(query: string, front: Split, c: char, text: string)
    requires WellFormed(front) && Parse(query) == front && Separator(c) && Plain(text)
    ensures Parse(query + [c] + text) == Split(front.parts + [text], front.separators + [c])
  {
    ParseOne(query, c);
    ParseAppends(query + [c], text);
    GrowExtended(front, c, text);
  }

  lemma ParseJoinLast(s: Split)
    requires WellFormed(s) && |s.separators| > 0
    requires var n := |s.separators|; var front := Split(s.parts[..n], s.separators[..n-1]); Parse(Join(front)) == front
    ensures Parse(Join(s)) == s
  {
    var n := |s.separators|;
    var front := Split(s.parts[..n], s.separators[..n-1]);
    ParseOnePart(Join(front), front, s.separators[n-1], s.parts[n]);
    FrontAndLast(s);
  }

  lemma FrontAndLast(s: Split)
    requires |s.parts| == |s.separators| + 1 && |s.separators| > 0
    ensures
      var n := |s.separators|;
      && s == Split(s.parts[..n] + [s.parts[n]], s.separators[..n-1] + [s.separators[n-1]])
      && Join(s) == Join(Split(s.parts[..n], s.separators[..n-1])) + [s.separators[n-1]] + s.parts[n]
  {
  }

  // ----- the rewriting loop -----

  function RedactParts(parts: seq<string>, rules: Rules): (r: seq<string>)
    ensures |r| == |parts|
  {
    seq(|parts|, i requires 0 <= i < |parts| => RedactPart(parts[i], rules))
  }

  function Redacted(query: string, rules: Rules): string {
    if query == "" then ""
    else Join(Split(RedactParts(Parse(query).parts, rules), Parse(query).separators))
  }

  /** What the loop has written before the part it is reading. */
  function Written(s: Split, rules: Rules): string
    requires WellFormed(s)
  {
    var n := |s.separators|;
    if n == 0 then ""
    else Join(Split(RedactParts(s.parts[..n], rules), s.separators[..n-1])) + [s.separators[n-1]]
  }

  lemma WrittenThenLast(s: Split, rules: Rules)
    requires WellFormed(s)
    ensures Join(Split(RedactParts(s.parts, rules), s.separators)) ==
            Written(s, rules) + RedactPart(s.parts[|s.parts|-1], rules)
  {
    var n := |s.separators|;
    assert RedactParts(s.parts, rules)[..n] == RedactParts(s.parts[..n], rules);
  }

  /** The scan is in the part that begins at start. */
  predicate Scanning(query: string, start: nat) {
    var s := Parse(query);
    start <= |query| && s.parts[|s.parts|-1] == query[start..]
  }

  lemma WrittenOn(s: Split, c: char, rules: Rules)
    requires WellFormed(s) && !Separator(c)
    ensures Written(Grow(s, c), rules) == Written(s, rules)
  {
    assert Grow(s, c).parts[..|s.separators|] == s.parts[..|s.separators|];
  }

  lemma WrittenSeparator(s: Split, c: char, rules: Rules)
    requires WellFormed(s) && Separator(c)
    ensures Written(Grow(s, c), rules) == Written(s, rules) + RedactPart(s.parts[|s.parts|-1], rules) + [c]
  {
    var t := Grow(s, c);
    WrittenThenLast(s, rules);
    assert t.parts[..|t.separators|] == s.parts && t.separators[..|t.separators|-1] == s.separators;
  }

  lemma ScanOn(query: string, c: char, start: nat)
    requires Scanning(query, start) && !Separator(c)
    ensures Scanning(query + [c], start)
  {
    ParseOne(query, c);
    assert (query + [c])[start..] == query[start..] + [c];
  }

  lemma ScanSeparator(query: string, c: char)
    requires Separator(c)
    ensures Scanning(query + [c], |query| + 1)
  {
    ParseOne(query, c);
    assert (query + [c])[|query|+1..] == "";
  }

  /** Before the given index, all finished parts and their separators are written. */
  predicate Progress(query: string, index: nat, start: nat, result: string, rules: Rules)
    requires index <= |query|
  {
    Scanning(query[..index], start) && result == Written(Parse(query[..index]), rules)
  }

  lemma ProgressStart(query: string, rules: Rules)
    ensures Progress(query, 0, 0, "", rules)
  {
    assert query[..0] == "";
  }

  lemma ProgressOn(query: string, index: nat, start: nat, result: string, rules: Rules)
    requires index < |query| && Progress(query, index, start, result, rules) && !Separator(query[index])
    ensures Progress(query, index + 1, start, result, rules)
  {
    var front, c := query[..index], query[index];
    assert query[..index+1] == front + [c];
    ScanOn(front, c, start);
    ParseOne(front, c);
    WrittenOn(Parse(front), c, rules);
  }

  lemma ProgressSeparator(query: string, index: nat, start: nat, result: string, rules: Rules)
    requires index < |query| && Progress(query, index, start, result, rules) && Separator(query[index])
    ensures start <= index
    ensures Progress(query, index + 1, index + 1,
                     result + RedactPart(query[start..index], rules) + [query[index]], rules)
  {
    var front, c := query[..index], query[index];
    assert query[..index+1] == front + [c];
    assert front[start..] == query[start..index];
    ScanSeparator(front, c);
    ParseOne(front, c);
    WrittenSeparator(Parse(front), c, rules);
  }

  lemma ProgressEnd(query: string, start: nat, result: string, rules: Rules)
    requires query != "" && Progress(query, |query|, start, result, rules)
    ensures start <= |query|
    ensures result + RedactPart(query[start..|query|], rules) == Redacted(query, rules)
  {
    assert query[..|query|] == query && query[start..] == query[start..|query|];
    WrittenThenLast(Parse(query), rules);
  }

  /** redactRawQuery: one scan, writing each part and separator as it ends. */
  method RedactRawQuery(query: string, rules: Rules) returns (result: string)
    ensures result == Redacted(query, rules)
  {
    if query == "" { return ""; }
    result := "";
    var start := 0;
    ProgressStart(query, rules);
    for index := 0 to |query| + 1
      invariant 0 <= start
      invariant index <= |query| ==> Progress(query, index, start, result, rules)
      invariant index > |query| ==> result == Redacted(query, rules)
    {
      if index < |query| && query[index] != '&' && query[index] != ';' {
        ProgressOn(query, index, start, result, rules);
        continue;
      }
      if index < |query| { ProgressSeparator(query, index, start, result, rules); }
      else { ProgressEnd(query, start, result, rules); }
      result := result + RedactPart(query[start..index], rules);
      if index < |query| { result := result + [query[index]]; }
      start := index + 1;
    }
  }

  lemma RedactedSplit(query: string, rules: Rules)
    requires query != ""
    ensures Parse(Redacted(query, rules)) == Split(RedactParts(Parse(query).parts, rules), Parse(query).separators)
  {
    var s := Parse(query);
    var t := Split(RedactParts(s.parts, rules), s.separators);
    forall i | 0 <= i < |t.parts| ensures Plain(t.parts[i]) {
      PartRedacted(s.parts[i], rules);
    }
    ParseJoin(t);
  }

  /** The rewritten query reads as the same separators and the same parameter
      names; a sensitive parameter has the replacement for its value and every
      other one is untouched. */
  lemma StructureKept(query: string, rules: Rules, i: nat)
    requires query != "" && i < |Parse(query).parts|
    ensures
      var s, t := Parse(query), Parse(Redacted(query, rules));
      && t.separators == s.separators && |t.parts| == |s.parts|
      && NameOf(t.parts[i]) == NameOf(s.parts[i])
      && (Sensitive(t.parts[i], rules) <==> Sensitive(s.parts[i], rules))
      && (if Sensitive(s.parts[i], rules) then t.parts[i] == NameOf(s.parts[i]) + "=" + REPLACEMENT
          else t.parts[i] == s.parts[i])
  {
    RedactedSplit(query, rules);
    PartRedacted(Parse(query).parts[i], rules);
  }

  /** The values of sensitive parameters leave no trace: queries that differ only
      in them are rewritten to the same text. */
  lemma SecretsForgotten(p: string, q: string, rules: Rules)
    requires p != "" && q != ""
    requires
      var s, t := Parse(p), Parse(q);
      && s.separators == t.separators
      && forall i | 0 <= i < |s.parts| ::
           s.parts[i] == t.parts[i] || (NameOf(s.parts[i]) == NameOf(t.parts[i]) && Sensitive(s.parts[i], rules))
    ensures Redacted(p, rules) == Redacted(q, rules)
  {
    assert RedactParts(Parse(p).parts, rules) == RedactParts(Parse(q).parts, rules);
  }

  /** A query without sensitive parameters is left alone. */
  lemma NothingSensitive(query: string, rules: Rules)
    ensures (forall i | 0 <= i < |Parse(query).parts| :: !Sensitive(Parse(query).parts[i], rules))
              ==> Redacted(query, rules) == query
  {
    if forall i | 0 <= i < |Parse(query).parts| :: !Sensitive(Parse(query).parts[i], rules) {
      assert RedactParts(Parse(query).parts, rules) == Parse(query).parts;
      JoinParse(query);
    }
  }

  lemma RedactionIdempotent(query: string, rules: Rules)
    ensures Redacted(Redacted(query, rules), rules) == Redacted(query, rules)
  {
    if query != "" {
      var s, once := Parse(query), Redacted(query, rules);
      RedactedSplit(query, rules);
      forall i | 0 <= i < |s.parts|
        ensures RedactPart(RedactPart(s.parts[i], rules), rules) == RedactPart(s.parts[i], rules)
      {
        PartRedacted(s.parts[i], rules);
      }
      assert RedactParts(RedactParts(s.parts, rules), rules) == RedactParts(s.parts, rules);
    }
  }
}
