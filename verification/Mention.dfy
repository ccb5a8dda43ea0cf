/** Mentions in message text: the scanning loop, and the declarative reading it refines. */
module Mention {
  import opened Prelude

  datatype Candidate = Candidate(userId: string, displayNames: seq<string>)

  datatype ParsedMentions = ParsedMentions(mentionAll: bool, userIds: seq<string>)

  /** What a token stands for: everyone, or one user. */
  datatype Token = Token(text: string, target: Option<string>)

  const ALL_TOKENS: seq<string> := ["all", "everyone", ['\U{5168}', '\U{5458}'], ['\U{6240}', '\U{6709}', '\U{4EBA}']]

  // ---------- characters ----------

  predicate IsCjk(c: char) {
    var u := c as int;
    || 0x3400 <= u <= 0x4DBF || 0x4E00 <= u <= 0x9FFF || 0xF900 <= u <= 0xFAFF
    || 0x3000 <= u <= 0x303F || 0xFF00 <= u <= 0xFFEF
  }

  predicate IsCjkPunctuation(c: char) {
    var u := c as int;
    0x3000 <= u <= 0x303F || 0xFF00 <= u <= 0xFF0F || 0xFF1A <= u <= 0xFF20
  }

  predicate IsTokenChar(c: char) {
    IsAlphanumeric(c) || c == '_' || c == '.' || c == '-' || (IsCjk(c) && !IsCjkPunctuation(c))
  }

  predicate IsBoundary(text: string, i: nat)
    requires i < |text|
  {
    i == 0 || IsWhitespace(text[i - 1]) || IsCjk(text[i - 1])
  }

  // ---------- tokens ----------

  function AllTokens(texts: seq<string>): seq<Token> {
    if texts == [] then [] else [Token(texts[0], None)] + AllTokens(texts[1..])
  }

  function NameTokens(names: seq<string>, id: string): seq<Token> {
    if names == [] then []
    else (if Trim(names[0]) == "" then [] else [Token(Trim(names[0]), Some(id))]) + NameTokens(names[1..], id)
  }

  function CandidateTokens(c: Candidate): seq<Token> {
    var id := Trim(c.userId);
    (if id == "" then [] else [Token(id, Some(id))]) + NameTokens(c.displayNames, id)
  }

  function UserTokens(candidates: seq<Candidate>): seq<Token> {
    if candidates == [] then [] else CandidateTokens(candidates[0]) + UserTokens(candidates[1..])
  }

  /** The token table in the order it is built. */
  function Tokens(candidates: seq<Candidate>): seq<Token> {
    AllTokens(ALL_TOKENS) + UserTokens(candidates)
  }

  /** Stable insertion by falling length: the new token goes before tokens that are not longer. */
  function Insert(t: Token, sorted: seq<Token>): seq<Token> {
    if sorted == [] || |sorted[0].text| <= |t.text| then [t] + sorted
    else [sorted[0]] + Insert(t, sorted[1..])
  }

  /** The table as the stable sort by falling length leaves it. */
  function Sorted(tokens: seq<Token>): seq<Token> {
    if tokens == [] then [] else Insert(tokens[0], Sorted(tokens[1..]))
  }

  /** `raw` begins with `text`, up to the case of ASCII letters. */
  predicate Begins(text: string, raw: string) {
    |text| <= |raw| && EqIgnoreCase(raw[..|text|], text)
  }

  predicate Matches(t: Token, raw: string) {
    Begins(t.text, raw)
  }

  /** The loop over the sorted table: the first token that is a prefix of `raw`. */
  function FirstMatch(tokens: seq<Token>, raw: string): Option<Token> {
    if tokens == [] then None
    else if Matches(tokens[0], raw) then Some(tokens[0])
    else FirstMatch(tokens[1..], raw)
  }

  // ---------- the declarative reading ----------

  /** Token `k` is the best match: no match is longer, and none as long stands earlier in the table. */
  ghost predicate IsBest(tokens: seq<Token>, raw: string, k: nat) {
    && k < |tokens| && Matches(tokens[k], raw)
    && forall j :: 0 <= j < |tokens| && Matches(tokens[j], raw) ==>
         |tokens[j].text| < |tokens[k].text| || (|tokens[j].text| == |tokens[k].text| && k <= j)
  }

  ghost predicate NoMatch(tokens: seq<Token>, raw: string) {
    forall j :: 0 <= j < |tokens| ==> !Matches(tokens[j], raw)
  }

  /** End of the run of token characters from `i` on. */
  function RunEnd(text: string, i: nat): (end: nat)
    requires i <= |text|
    ensures i <= end <= |text|
    ensures forall k :: i <= k < end ==> IsTokenChar(text[k])
    ensures end < |text| ==> !IsTokenChar(text[end])
    decreases |text| - i
  {
    if i < |text| && IsTokenChar(text[i]) then RunEnd(text, i + 1) else i
  }

  /** The mention at position `i`, if there is one. */
  function MentionAt(text: string, table: seq<Token>, i: nat): Option<Token>
    requires i < |text|
  {
    if text[i] == '@' && IsBoundary(text, i) then FirstMatch(table, text[i + 1..RunEnd(text, i + 1)]) else None
  }

  function Note(seen: ParsedMentions, m: Option<Token>): ParsedMentions {
    match m
    case None => seen
    case Some(Token(_, None)) => seen.(mentionAll := true)
    case Some(Token(_, Some(id))) => if id in seen.userIds then seen else seen.(userIds := seen.userIds + [id])
  }

  /** The positions below `n` in turn, none skipped. */
  function Upto(text: string, table: seq<Token>, n: nat): ParsedMentions
    requires n <= |text|
  {
    if n == 0 then ParsedMentions(false, []) else Note(Upto(text, table, n - 1), MentionAt(text, table, n - 1))
  }

  function Mentions(text: string, candidates: seq<Candidate>): ParsedMentions {
    Upto(text, Sorted(Tokens(candidates)), |text|)
  }

  // ---------- longest first, earliest among equals ----------

  lemma {:induction false} InsertFirstMatch(t: Token, sorted: seq<Token>, raw: string)
    requires Descending(sorted)
    ensures FirstMatch(Insert(t, sorted), raw) ==
            var rest := FirstMatch(sorted, raw);
            if Matches(t, raw) && (rest.None? || |rest.value.text| <= |t.text|) then Some(t) else rest
  {
    if sorted == [] || |sorted[0].text| <= |t.text| {
      assert ([t] + sorted)[1..] == sorted;
      FirstMatchBound(sorted, raw);
    } else {
      var out := [sorted[0]] + Insert(t, sorted[1..]);
      assert out[1..] == Insert(t, sorted[1..]);
      InsertFirstMatch(t, sorted[1..], raw);
    }
  }

  ghost predicate Descending(s: seq<Token>) {
    forall i, j :: 0 <= i < j < |s| ==> |s[j].text| <= |s[i].text|
  }

  lemma {:induction false} FirstMatchBound(sorted: seq<Token>, raw: string)
    requires Descending(sorted)
    ensures FirstMatch(sorted, raw).Some? ==> sorted != [] && |FirstMatch(sorted, raw).value.text| <= |sorted[0].text|
  {
    if sorted != [] && !Matches(sorted[0], raw) {
      FirstMatchBound(sorted[1..], raw);
    }
  }

  lemma {:induction false} InsertDescending(t: Token, sorted: seq<Token>)
    requires Descending(sorted)
    ensures Descending(Insert(t, sorted))
    ensures Insert(t, sorted) != []
    ensures |Insert(t, sorted)[0].text| <=
              if sorted == [] || |sorted[0].text| <= |t.text| then |t.text| else |sorted[0].text|
  {
    if sorted != [] && |sorted[0].text| > |t.text| {
      InsertDescending(t, sorted[1..]);
      var rest := Insert(t, sorted[1..]);
      assert Descending(rest);
      assert |rest[0].text| <= |sorted[0].text|;
    }
  }

  lemma {:induction false} InsertAdds(t: Token, sorted: seq<Token>)
    ensures multiset(Insert(t, sorted)) == multiset(sorted) + multiset{t}
  {
    if sorted != [] && |sorted[0].text| > |t.text| {
      InsertAdds(t, sorted[1..]);
      assert sorted == [sorted[0]] + sorted[1..];
    }
  }

  lemma {:induction false} SortedDescending(tokens: seq<Token>)
    ensures Descending(Sorted(tokens)) && multiset(Sorted(tokens)) == multiset(tokens)
  {
    if tokens != [] {
      SortedDescending(tokens[1..]);
      InsertDescending(tokens[0], Sorted(tokens[1..]));
      InsertAdds(tokens[0], Sorted(tokens[1..]));
      assert tokens == [tokens[0]] + tokens[1..];
    }
  }

  /** Scanning the sorted table finds the best match of the table as built: the longest prefix, the
      earliest among equally long ones. */
  lemma {:induction false} FirstMatchIsBest(tokens: seq<Token>, raw: string)
    ensures var m := FirstMatch(Sorted(tokens), raw);
            if m.None? then NoMatch(tokens, raw) else exists k: nat :: IsBest(tokens, raw, k) && tokens[k] == m.value
  {
    if tokens != [] {
      FirstMatchIsBest(tokens[1..], raw);
      SortedDescending(tokens[1..]);
      InsertFirstMatch(tokens[0], Sorted(tokens[1..]), raw);
      var rest := FirstMatch(Sorted(tokens[1..]), raw);
      var t := tokens[0];
      assert forall j :: 1 <= j < |tokens| ==> tokens[j] == tokens[1..][j - 1];
      if rest.None? {
        if Matches(t, raw) { assert IsBest(tokens, raw, 0); }
      } else {
        var k: nat :| IsBest(tokens[1..], raw, k) && tokens[1..][k] == rest.value;
        if Matches(t, raw) && |rest.value.text| <= |t.text| {
          assert IsBest(tokens, raw, 0);
        } else {
          assert IsBest(tokens, raw, k + 1);
        }
      }
    }
  }

  // ---------- what the result says ----------

  /** Position `i` mentions the user `id`. */
  predicate MentionsUser(text: string, table: seq<Token>, i: nat, id: string) {
    i < |text| && MentionAt(text, table, i).Some? && MentionAt(text, table, i).value.target == Some(id)
  }

  predicate MentionsAll(text: string, table: seq<Token>, i: nat) {
    i < |text| && MentionAt(text, table, i).Some? && MentionAt(text, table, i).value.target == None
  }

  /** The users found are exactly those mentioned somewhere. */
  lemma {:induction false} FoundIffMentioned(text: string, table: seq<Token>, n: nat, id: string)
    requires n <= |text|
    ensures id in Upto(text, table, n).userIds <==> exists i: nat :: i < n && MentionsUser(text, table, i, id)
  {
    if n > 0 {
      FoundIffMentioned(text, table, n - 1, id);
      var m := MentionAt(text, table, n - 1);
      if m.Some? && m.value.target == Some(id) { assert MentionsUser(text, table, n - 1, id); }
    }
  }

  /** Everyone is mentioned exactly when some position says so. */
  lemma {:induction false} AllIffMentioned(text: string, table: seq<Token>, n: nat)
    requires n <= |text|
    ensures Upto(text, table, n).mentionAll <==> exists i: nat :: i < n && MentionsAll(text, table, i)
  {
    if n > 0 {
      AllIffMentioned(text, table, n - 1);
      var m := MentionAt(text, table, n - 1);
      if m.Some? && m.value.target == None { assert MentionsAll(text, table, n - 1); }
    }
  }

  /** Below `n`, some mention of `x` comes before every mention of `y`. */
  ghost predicate FirstBefore(text: string, table: seq<Token>, n: nat, x: string, y: string) {
    exists i: nat ::
      && i < n && MentionsUser(text, table, i, x)
      && forall j: nat :: j < n && MentionsUser(text, table, j, y) ==> i < j
  }

  lemma FirstBeforeGrows(text: string, table: seq<Token>, n: nat, x: string, y: string)
    requires FirstBefore(text, table, n, x, y)
    ensures FirstBefore(text, table, n + 1, x, y)
  {
    var i: nat :| i < n && MentionsUser(text, table, i, x)
                  && forall j: nat :: j < n && MentionsUser(text, table, j, y) ==> i < j;
    assert i < n + 1 && forall j: nat :: j < n + 1 && MentionsUser(text, table, j, y) ==> i < j;
  }

  lemma NewcomerIsLater(text: string, table: seq<Token>, n: nat, x: string, y: string)
    requires n < |text| && x in Upto(text, table, n).userIds && y !in Upto(text, table, n).userIds
    ensures FirstBefore(text, table, n + 1, x, y)
  {
    FoundIffMentioned(text, table, n, x);
    FoundIffMentioned(text, table, n, y);
    var i: nat :| i < n && MentionsUser(text, table, i, x);
    assert i < n + 1 && forall j: nat :: j < n + 1 && MentionsUser(text, table, j, y) ==> i < j;
  }

  /** No user twice, in the order of first mention. */
  lemma {:induction false} FirstOccurrenceOrder(text: string, table: seq<Token>, n: nat, p: nat, q: nat)
    requires n <= |text| && p < q < |Upto(text, table, n).userIds|
    ensures var ids := Upto(text, table, n).userIds;
            ids[p] != ids[q] && FirstBefore(text, table, n, ids[p], ids[q])
  {
    var before := Upto(text, table, n - 1).userIds;
    var ids := Upto(text, table, n).userIds;
    if q < |before| {
      FirstOccurrenceOrder(text, table, n - 1, p, q);
      FirstBeforeGrows(text, table, n - 1, ids[p], ids[q]);
    } else {
      assert ids[p] in before;
      NewcomerIsLater(text, table, n - 1, ids[p], ids[q]);
    }
  }

  /** What one position contributes, in terms of the candidates: an `@` at a boundary, and the best
      token of the table that starts the run of token characters after it. */
  lemma MentionMeaning(text: string, candidates: seq<Candidate>, i: nat)
    requires i < |text|
    ensures var m := MentionAt(text, Sorted(Tokens(candidates)), i);
            var raw := text[i + 1..RunEnd(text, i + 1)];
            if m.Some? then
              && text[i] == '@' && IsBoundary(text, i)
              && exists k: nat :: IsBest(Tokens(candidates), raw, k) && Tokens(candidates)[k] == m.value
            else text[i] == '@' && IsBoundary(text, i) ==> NoMatch(Tokens(candidates), raw)
  {
    FirstMatchIsBest(Tokens(candidates), text[i + 1..RunEnd(text, i + 1)]);
  }

  /** A stretch without `@` adds nothing. */
  lemma {:induction false} SkipPlain(text: string, table: seq<Token>, i: nat, j: nat)
    requires i <= j <= |text| && forall k :: i <= k < j ==> text[k] != '@'
    ensures Upto(text, table, j) == Upto(text, table, i)
    decreases j - i
  {
    if i < j { SkipPlain(text, table, i, j - 1); }
  }

  // ---------- whose token it is ----------

  /** The four words that mention everyone. */
  predicate IsEveryoneWord(text: string) {
    text == "all" || text == "everyone" || text == "\U{5168}\U{5458}" || text == "\U{6240}\U{6709}\U{4EBA}"
  }

  /** What a candidate can be called by: the trimmed id or a trimmed display name, unless blank. */
  predicate IsTextOf(c: Candidate, text: string) {
    text != "" && (text == Trim(c.userId) || exists k :: 0 <= k < |c.displayNames| && text == Trim(c.displayNames[k]))
  }

  lemma {:induction false} NameTokenMeaning(names: seq<string>, id: string, t: Token)
    ensures t in NameTokens(names, id) <==>
              t.target == Some(id) && t.text != "" && exists k :: 0 <= k < |names| && t.text == Trim(names[k])
  {
    if names != [] {
      NameTokenMeaning(names[1..], id, t);
      assert forall k :: 0 < k < |names| ==> names[k] == names[1..][k - 1];
    }
  }

  lemma CandidateTokenMeaning(c: Candidate, t: Token)
    ensures t in CandidateTokens(c) <==> t.target == Some(Trim(c.userId)) && IsTextOf(c, t.text)
  {
    NameTokenMeaning(c.displayNames, Trim(c.userId), t);
  }

  lemma {:induction false} UserTokenMeaning(candidates: seq<Candidate>, t: Token)
    ensures t in UserTokens(candidates) <==>
              exists n :: 0 <= n < |candidates| && t.target == Some(Trim(candidates[n].userId)) && IsTextOf(candidates[n], t.text)
  {
    if candidates != [] {
      CandidateTokenMeaning(candidates[0], t);
      UserTokenMeaning(candidates[1..], t);
      assert forall n :: 0 < n < |candidates| ==> candidates[n] == candidates[1..][n - 1];
    }
  }

  lemma EveryoneTokenMeaning(t: Token)
    ensures t in AllTokens(ALL_TOKENS) <==> t.target == None && IsEveryoneWord(t.text)
  {
    var s := ALL_TOKENS;
    assert s[1..][1..] == s[2..] && s[2..][1..] == s[3..] && s[3..][1..] == [];
    assert AllTokens(s) == [Token(s[0], None), Token(s[1], None), Token(s[2], None), Token(s[3], None)];
    assert s[2] == "\U{5168}\U{5458}" && s[3] == "\U{6240}\U{6709}\U{4EBA}";
  }

  /** The table holds the everyone words, without target, and every candidate's texts, with that
      candidate's trimmed id for target; and nothing else. */
  lemma TokenMeaning(candidates: seq<Candidate>, t: Token)
    ensures t in Tokens(candidates) <==>
              || (t.target == None && IsEveryoneWord(t.text))
              || exists n :: 0 <= n < |candidates| && t.target == Some(Trim(candidates[n].userId)) && IsTextOf(candidates[n], t.text)
  {
    EveryoneTokenMeaning(t);
    UserTokenMeaning(candidates, t);
  }

  /** Some text of the candidate, `len` characters long, begins `raw`. */
  ghost predicate Calls(c: Candidate, raw: string, len: nat) {
    exists text :: IsTextOf(c, text) && |text| == len && Begins(text, raw)
  }

  ghost predicate CallsAll(raw: string, len: nat) {
    exists text :: IsEveryoneWord(text) && |text| == len && Begins(text, raw)
  }

  /** Candidate `n` is the first of those with the longest text that begins `raw`. */
  ghost predicate IsOwner(candidates: seq<Candidate>, raw: string, n: nat, len: nat) {
    && n < |candidates| && Calls(candidates[n], raw, len)
    && forall k, l: nat :: 0 <= k < |candidates| && Calls(candidates[k], raw, l) ==> l < len || (l == len && n <= k)
  }

  /** Of two tables one after the other, the first wins unless the second has a longer match. */
  function Better(a: Option<Token>, b: Option<Token>): Option<Token> {
    if a.Some? && (b.None? || |b.value.text| <= |a.value.text|) then a else b
  }

  lemma {:induction false} FirstMatchConcat(a: seq<Token>, b: seq<Token>, raw: string)
    ensures FirstMatch(Sorted(a + b), raw) == Better(FirstMatch(Sorted(a), raw), FirstMatch(Sorted(b), raw))
  {
    if a == [] {
      assert a + b == b;
    } else {
      assert (a + b)[1..] == a[1..] + b;
      FirstMatchConcat(a[1..], b, raw);
      SortedDescending(a[1..] + b);
      SortedDescending(a[1..]);
      InsertFirstMatch(a[0], Sorted(a[1..] + b), raw);
      InsertFirstMatch(a[0], Sorted(a[1..]), raw);
    }
  }

  /** Within one candidate's texts the longest one counts. */
  lemma CandidateBest(c: Candidate, raw: string)
    ensures var m := FirstMatch(Sorted(CandidateTokens(c)), raw);
            && (m.None? ==> forall l: nat :: !Calls(c, raw, l))
            && (m.Some? ==>
                  && m.value.target == Some(Trim(c.userId)) && Calls(c, raw, |m.value.text|)
                  && forall l: nat :: Calls(c, raw, l) ==> l <= |m.value.text|)
  {
    var tokens := CandidateTokens(c);
    var m := FirstMatch(Sorted(tokens), raw);
    FirstMatchIsBest(tokens, raw);
    if m.Some? {
      CandidateTokenMeaning(c, m.value);
    }
    forall l: nat | Calls(c, raw, l)
      ensures m.Some? && l <= |m.value.text|
    {
      var text :| IsTextOf(c, text) && |text| == l && Begins(text, raw);
      var t := Token(text, Some(Trim(c.userId)));
      CandidateTokenMeaning(c, t);
      var j :| 0 <= j < |tokens| && tokens[j] == t;
      assert Matches(tokens[j], raw);
    }
  }

  lemma {:induction false} UserBest(candidates: seq<Candidate>, raw: string)
    ensures var m := FirstMatch(Sorted(UserTokens(candidates)), raw);
            && (m.None? ==> forall k, l: nat :: 0 <= k < |candidates| ==> !Calls(candidates[k], raw, l))
            && (m.Some? ==>
                  exists n: nat :: IsOwner(candidates, raw, n, |m.value.text|) && m.value.target == Some(Trim(candidates[n].userId)))
  {
    if candidates != [] {
      var head, tail := candidates[0], candidates[1..];
      UserBest(tail, raw);
      CandidateBest(head, raw);
      FirstMatchConcat(CandidateTokens(head), UserTokens(tail), raw);
      assert forall k :: 0 < k < |candidates| ==> candidates[k] == tail[k - 1];
      var here := FirstMatch(Sorted(CandidateTokens(head)), raw);
      var later := FirstMatch(Sorted(UserTokens(tail)), raw);
      if Better(here, later) == here && here.Some? {
        OwnerIsHead(candidates, raw, |here.value.text|, later);
      } else if later.Some? {
        var n: nat :| IsOwner(tail, raw, n, |later.value.text|) && later.value.target == Some(Trim(tail[n].userId));
        OwnerIsLater(candidates, raw, n, |later.value.text|, here);
      }
    }
  }

  lemma OwnerIsHead(candidates: seq<Candidate>, raw: string, len: nat, later: Option<Token>)
    requires candidates != [] && Calls(candidates[0], raw, len)
    requires forall l: nat :: Calls(candidates[0], raw, l) ==> l <= len
    requires later.None? ==> forall k, l: nat :: 0 <= k < |candidates| - 1 ==> !Calls(candidates[1..][k], raw, l)
    requires later.Some? ==> |later.value.text| <= len
                             && exists n: nat :: IsOwner(candidates[1..], raw, n, |later.value.text|)
    ensures IsOwner(candidates, raw, 0, len)
  {
    forall k, l: nat | 0 <= k < |candidates| && Calls(candidates[k], raw, l)
      ensures l <= len
    {
      if k > 0 {
        assert candidates[k] == candidates[1..][k - 1];
      }
    }
  }

  lemma OwnerIsLater(candidates: seq<Candidate>, raw: string, n: nat, len: nat, here: Option<Token>)
    requires candidates != [] && IsOwner(candidates[1..], raw, n, len)
    requires here.None? ==> forall l: nat :: !Calls(candidates[0], raw, l)
    requires here.Some? ==> |here.value.text| < len && forall l: nat :: Calls(candidates[0], raw, l) ==> l <= |here.value.text|
    ensures IsOwner(candidates, raw, n + 1, len) && candidates[n + 1] == candidates[1..][n]
  {
    forall k, l: nat | 0 <= k < |candidates| && Calls(candidates[k], raw, l)
      ensures l < len || (l == len && n + 1 <= k)
    {
      if k > 0 {
        assert candidates[k] == candidates[1..][k - 1];
      }
    }
  }

  /** Within the everyone words the longest one counts. */
  lemma EveryoneBest(raw: string)
    ensures var m := FirstMatch(Sorted(AllTokens(ALL_TOKENS)), raw);
            && (m.None? ==> forall l: nat :: !CallsAll(raw, l))
            && (m.Some? ==>
                  && m.value.target == None && CallsAll(raw, |m.value.text|)
                  && forall l: nat :: CallsAll(raw, l) ==> l <= |m.value.text|)
  {
    var tokens := AllTokens(ALL_TOKENS);
    var m := FirstMatch(Sorted(tokens), raw);
    FirstMatchIsBest(tokens, raw);
    if m.Some? {
      EveryoneTokenMeaning(m.value);
    }
    forall l: nat | CallsAll(raw, l)
      ensures m.Some? && l <= |m.value.text|
    {
      var text :| IsEveryoneWord(text) && |text| == l && Begins(text, raw);
      var t := Token(text, None);
      EveryoneTokenMeaning(t);
      var j :| 0 <= j < |tokens| && tokens[j] == t;
      assert Matches(tokens[j], raw);
    }
  }

  /** After an `@` at a boundary: the run of token characters. */
  function RawAt(text: string, i: nat): string
    requires i < |text|
  {
    text[i + 1..RunEnd(text, i + 1)]
  }

  /** An `@` at a boundary calls candidate `n`: its text is the longest that fits, longer than every
      everyone word that fits, and no earlier candidate has one as long. */
  ghost predicate CallsCandidateAt(text: string, candidates: seq<Candidate>, i: nat, n: nat) {
    && i < |text| && text[i] == '@' && IsBoundary(text, i)
    && exists len: nat ::
         IsOwner(candidates, RawAt(text, i), n, len) && forall l: nat :: CallsAll(RawAt(text, i), l) ==> l < len
  }

  /** An `@` calls a candidate of this trimmed id. */
  ghost predicate CallsUserAt(text: string, candidates: seq<Candidate>, i: nat, id: string) {
    exists n: nat :: CallsCandidateAt(text, candidates, i, n) && id == Trim(candidates[n].userId)
  }

  /** An `@` at a boundary calls everyone: no candidate's text that fits is longer than some everyone
      word that fits. */
  ghost predicate CallsEveryoneAt(text: string, candidates: seq<Candidate>, i: nat) {
    && i < |text| && text[i] == '@' && IsBoundary(text, i)
    && exists len: nat ::
         && CallsAll(RawAt(text, i), len)
         && forall k, l: nat :: 0 <= k < |candidates| && Calls(candidates[k], RawAt(text, i), l) ==> l <= len
  }

  /** One `@` calls at most one candidate, and not everyone besides. */
  lemma CallsOne(text: string, candidates: seq<Candidate>, i: nat, n: nat, k: nat)
    requires CallsCandidateAt(text, candidates, i, n)
    ensures CallsCandidateAt(text, candidates, i, k) ==> n == k
    ensures !CallsEveryoneAt(text, candidates, i)
  {
    var raw := RawAt(text, i);
    var len: nat :| IsOwner(candidates, raw, n, len) && forall l: nat :: CallsAll(raw, l) ==> l < len;
    if CallsCandidateAt(text, candidates, i, k) {
      var l: nat :| IsOwner(candidates, raw, k, l) && forall j: nat :: CallsAll(raw, j) ==> j < l;
    }
  }

  /** What the table makes of a run: the owner's id, or everyone, or nothing. */
  lemma RunMeaning(candidates: seq<Candidate>, raw: string)
    ensures var m := FirstMatch(Sorted(Tokens(candidates)), raw);
            && (m.None? ==> (forall l: nat :: !CallsAll(raw, l))
                            && forall k, l: nat :: 0 <= k < |candidates| ==> !Calls(candidates[k], raw, l))
            && (m.Some? && m.value.target == None ==>
                  && CallsAll(raw, |m.value.text|)
                  && forall k, l: nat :: 0 <= k < |candidates| && Calls(candidates[k], raw, l) ==> l <= |m.value.text|)
            && (m.Some? && m.value.target != None ==>
                  && (forall l: nat :: CallsAll(raw, l) ==> l < |m.value.text|)
                  && exists n: nat :: IsOwner(candidates, raw, n, |m.value.text|) && m.value.target == Some(Trim(candidates[n].userId)))
  {
    EveryoneBest(raw);
    UserBest(candidates, raw);
    FirstMatchConcat(AllTokens(ALL_TOKENS), UserTokens(candidates), raw);
  }

  /** Position `i` mentions the user exactly if it calls a candidate of that trimmed id. */
  lemma UserAtMeaning(text: string, candidates: seq<Candidate>, i: nat, id: string)
    ensures MentionsUser(text, Sorted(Tokens(candidates)), i, id) <==> CallsUserAt(text, candidates, i, id)
  {
    if i < |text| && text[i] == '@' && IsBoundary(text, i) {
      RunMeaning(candidates, RawAt(text, i));
      var m := MentionAt(text, Sorted(Tokens(candidates)), i);
      if m.Some? && m.value.target != None {
        var n: nat :| IsOwner(candidates, RawAt(text, i), n, |m.value.text|) && m.value.target == Some(Trim(candidates[n].userId));
        assert CallsCandidateAt(text, candidates, i, n);
      }
    }
  }

  /** Position `i` mentions everyone exactly if it calls everyone. */
  lemma EveryoneAtMeaning(text: string, candidates: seq<Candidate>, i: nat)
    ensures MentionsAll(text, Sorted(Tokens(candidates)), i) <==> CallsEveryoneAt(text, candidates, i)
  {
    if i < |text| && text[i] == '@' && IsBoundary(text, i) {
      RunMeaning(candidates, RawAt(text, i));
    }
  }

  /** The result over the candidates: a user is in it exactly if some `@` calls a candidate of that
      trimmed id, and everyone is mentioned exactly if some `@` calls everyone. */
  lemma MentionsMeaning(text: string, candidates: seq<Candidate>)
    ensures forall id :: id in Mentions(text, candidates).userIds <==> exists i: nat :: CallsUserAt(text, candidates, i, id)
    ensures Mentions(text, candidates).mentionAll <==> exists i: nat :: CallsEveryoneAt(text, candidates, i)
  {
    forall id {
      UserMeaning(text, candidates, id);
    }
    var table := Sorted(Tokens(candidates));
    AllIffMentioned(text, table, |text|);
    forall i: nat
      ensures MentionsAll(text, table, i) <==> CallsEveryoneAt(text, candidates, i)
    {
      EveryoneAtMeaning(text, candidates, i);
    }
  }

  lemma UserMeaning(text: string, candidates: seq<Candidate>, id: string)
    ensures id in Mentions(text, candidates).userIds <==> exists i: nat :: CallsUserAt(text, candidates, i, id)
  {
    var table := Sorted(Tokens(candidates));
    FoundIffMentioned(text, table, |text|, id);
    forall i: nat
      ensures MentionsUser(text, table, i, id) <==> CallsUserAt(text, candidates, i, id)
    {
      UserAtMeaning(text, candidates, i, id);
    }
  }

  /** Where an `@` counts: at the start, after white space and after Chinese text, but not after what an
      address is written with. */
  lemma BoundaryMeaning(text: string, i: nat)
    requires i < |text|
    ensures i == 0 || text[i - 1] in " \t\n" || 0x4E00 <= text[i - 1] as int <= 0x9FFF ==> IsBoundary(text, i)
    ensures i > 0 && (IsAlphanumeric(text[i - 1]) || text[i - 1] in "_.-+@/:") ==>
              !IsBoundary(text, i) && forall table :: MentionAt(text, table, i) == None
  {
  }

  /** A run of token characters goes on over letters, digits and Chinese characters, and ends at white
      space, at another `@` and at punctuation, Chinese punctuation included. */
  lemma TokenCharacters(c: char)
    ensures IsAlphanumeric(c) || c in "_.-" || 0x4E00 <= c as int <= 0x9FFF ==> IsTokenChar(c)
    ensures IsWhitespace(c) || c in "@,;:!?()\"'" ==> !IsTokenChar(c)
    ensures 0x3000 <= c as int <= 0x303F || 0xFF00 <= c as int <= 0xFF0F || 0xFF1A <= c as int <= 0xFF20 ==> !IsTokenChar(c)
  {
  }

  lemma {:induction false} NoEmptyMatch(table: seq<Token>)
    requires forall t :: t in table ==> t.text != ""
    ensures FirstMatch(table, "") == None
  {
    if table != [] {
      assert table[0] in table;
      NoEmptyMatch(table[1..]);
    }
  }

  /** An `@` followed by no token character mentions nobody: no token is empty. */
  lemma NothingAfterAt(candidates: seq<Candidate>)
    ensures FirstMatch(Sorted(Tokens(candidates)), "") == None
  {
    var tokens := Tokens(candidates);
    SortedDescending(tokens);
    forall t | t in Sorted(tokens)
      ensures t.text != ""
    {
      assert t in multiset(tokens);
      TokenMeaning(candidates, t);
    }
    NoEmptyMatch(Sorted(tokens));
  }

  // ---------- the loops ----------

  lemma {:induction false} NameTokensConcat(a: seq<string>, b: seq<string>, id: string)
    ensures NameTokens(a + b, id) == NameTokens(a, id) + NameTokens(b, id)
  {
    if a == [] {
      assert a + b == b;
    } else {
      assert (a + b)[1..] == a[1..] + b;
      NameTokensConcat(a[1..], b, id);
    }
  }

  lemma {:induction false} UserTokensConcat(a: seq<Candidate>, b: seq<Candidate>)
    ensures UserTokens(a + b) == UserTokens(a) + UserTokens(b)
  {
    if a == [] {
      assert a + b == b;
    } else {
      assert (a + b)[1..] == a[1..] + b;
      UserTokensConcat(a[1..], b);
    }
  }

  lemma UserTokensSnoc(candidates: seq<Candidate>, n: nat)
    requires n < |candidates|
    ensures UserTokens(candidates[..n + 1]) == UserTokens(candidates[..n]) + CandidateTokens(candidates[n])
  {
    assert candidates[..n + 1] == candidates[..n] + [candidates[n]];
    UserTokensConcat(candidates[..n], [candidates[n]]);
    assert UserTokens([candidates[n]]) == CandidateTokens(candidates[n]);
  }

  method PushNames(start: seq<Token>, names: seq<string>, id: string) returns (tokens: seq<Token>)
    ensures tokens == start + NameTokens(names, id)
  {
    tokens := start;
    for k := 0 to |names|
      invariant tokens == start + NameTokens(names[..k], id)
    {
      assert names[..k + 1] == names[..k] + [names[k]];
      NameTokensConcat(names[..k], [names[k]], id);
      var name := Trim(names[k]);
      if name != "" {
        tokens := tokens + [Token(name, Some(id))];
      }
    }
    assert names[..|names|] == names;
  }

  method PushCandidate(start: seq<Token>, c: Candidate) returns (tokens: seq<Token>)
    ensures tokens == start + CandidateTokens(c)
  {
    var id := Trim(c.userId);
    tokens := start;
    if id != "" {
      tokens := tokens + [Token(id, Some(id))];
    }
    tokens := PushNames(tokens, c.displayNames, id);
  }

  lemma Regroup(a: seq<Token>, b: seq<Token>, c: seq<Token>)
    ensures (a + b) + c == a + (b + c)
  {
  }

  method PushCandidates(start: seq<Token>, candidates: seq<Candidate>) returns (tokens: seq<Token>)
    ensures tokens == start + UserTokens(candidates)
  {
    tokens := start;
    for n := 0 to |candidates|
      invariant tokens == start + UserTokens(candidates[..n])
    {
      UserTokensSnoc(candidates, n);
      Regroup(start, UserTokens(candidates[..n]), CandidateTokens(candidates[n]));
      tokens := PushCandidate(tokens, candidates[n]);
    }
    assert candidates[..|candidates|] == candidates;
  }

  method BuildTable(candidates: seq<Candidate>) returns (tokens: seq<Token>)
    ensures tokens == Tokens(candidates)
    ensures forall t :: t in tokens <==>
              || (t.target == None && IsEveryoneWord(t.text))
              || exists n :: 0 <= n < |candidates| && t.target == Some(Trim(candidates[n].userId)) && IsTextOf(candidates[n], t.text)
  {
    forall t {
      TokenMeaning(candidates, t);
    }
    tokens := PushCandidates(AllTokens(ALL_TOKENS), candidates);
  }

  method FindToken(table: seq<Token>, raw: string) returns (m: Option<Token>)
    ensures m == FirstMatch(table, raw)
    ensures m.Some? ==> Matches(m.value, raw)
  {
    for n := 0 to |table|
      invariant FirstMatch(table, raw) == FirstMatch(table[n..], raw)
    {
      assert table[n..][1..] == table[n + 1..];
      if |table[n].text| <= |raw| && EqIgnoreCase(raw[..|table[n].text|], table[n].text) {
        return Some(table[n]);
      }
    }
    m := None;
  }

  /** What follows an `@`, up to the first character that cannot be part of a token. */
  method ReadRun(text: string, start: nat) returns (end: nat)
    requires start <= |text|
    ensures end == RunEnd(text, start)
  {
    end := start;
    while end < |text| && IsTokenChar(text[end])
      invariant start <= end <= |text|
      invariant RunEnd(text, end) == RunEnd(text, start)
    {
      end := end + 1;
    }
  }

  /** The scanning loop: it jumps over what it has matched, and finds the same mentions as looking at
      every position. */
  method Scan(text: string, table: seq<Token>) returns (result: ParsedMentions)
    requires FirstMatch(table, "") == None
    ensures result == Upto(text, table, |text|)
  {
    result := ParsedMentions(false, []);
    var i := 0;
    while i < |text|
      invariant 0 <= i <= |text|
      invariant result == Upto(text, table, i)
    {
      if text[i] != '@' || !IsBoundary(text, i) {
        i := i + 1;
        continue;
      }
      var end := ReadRun(text, i + 1);
      var raw := text[i + 1..end];
      if raw == "" {
        i := i + 1;
        continue;
      }
      var m := FindToken(table, raw);
      assert m == MentionAt(text, table, i);
      var matched := 0;
      if m.Some? {
        match m.value.target {
          case None => result := result.(mentionAll := true);
          case Some(id) =>
            if id !in result.userIds {
              result := result.(userIds := result.userIds + [id]);
            }
        }
        matched := |m.value.text|;
      }
      assert result == Upto(text, table, i + 1);
      var next := if matched > 0 then i + 1 + matched else end;
      SkipPlain(text, table, i + 1, next);
      i := next;
    }
  }

  method ParseMentions(text: string, candidates: seq<Candidate>) returns (result: ParsedMentions)
    ensures result == Mentions(text, candidates)
    ensures forall id :: id in result.userIds <==> exists i: nat :: CallsUserAt(text, candidates, i, id)
    ensures result.mentionAll <==> exists i: nat :: CallsEveryoneAt(text, candidates, i)
  {
    var tokens := BuildTable(candidates);
    NothingAfterAt(candidates);
    result := Scan(text, Sorted(tokens));
    MentionsMeaning(text, candidates);
  }
}
