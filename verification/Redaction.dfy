/** Secret redaction: what starring out secrets, literal or matched, leaves of them. */
module Redaction {
  import opened Base

  const REDACTED := "***"

  predicate At(text: string, s: string, i: nat) {
    i + |s| <= |text| && forall k :: 0 <= k < |s| ==> text[i + k] == s[k]
  }

  ghost predicate Contains(text: string, s: string) {
    exists i: nat :: At(text, s, i)
  }

  function FindFrom(text: string, s: string, i: nat): (r: Option<nat>)
    ensures r.Some? ==> i <= r.value && At(text, s, r.value) && forall j: nat :: i <= j < r.value ==> !At(text, s, j)
    ensures r.None? ==> forall j: nat :: i <= j ==> !At(text, s, j)
    decreases |text| - i
  {
    if i + |s| > |text| then None
    else if At(text, s, i) then Some(i)
    else FindFrom(text, s, i + 1)
  }

  /** The first occurrence, as str.find sees it. */
  function Find(text: string, s: string): (r: Option<nat>)
    ensures r.Some? ==> At(text, s, r.value) && forall j: nat :: j < r.value ==> !At(text, s, j)
    ensures r.None? ==> !Contains(text, s)
  {
    FindFrom(text, s, 0)
  }

  /** Occurrences in a part of a text are the occurrences in the text that lie there. */
  lemma InPart(text: string, a: nat, b: nat, s: string, j: nat)
    requires a <= b <= |text| && j + |s| <= b - a
    ensures At(text[a..b], s, j) <==> At(text, s, a + j)
  {
  }

  // ------------------------------------------------------------------ cutting and starring

  /** Pieces with the mark between each two. */
  function Join(pieces: seq<string>): string
    requires pieces != []
  {
    if |pieces| == 1 then pieces[0] else pieces[0] + REDACTED + Join(pieces[1..])
  }

  /** What the replacement of a literal keeps: the text before, between and after its occurrences. */
  function Kept(text: string, secret: string): (pieces: seq<string>)
    requires secret != ""
    ensures pieces != []
    decreases |text|
  {
    var i := Find(text, secret);
    if i.None? then [text] else [text[..i.value]] + Kept(text[i.value + |secret|..], secret)
  }

  /** str.replace(secret, "***"). */
  function Replace(text: string, secret: string): string
    requires secret != ""
  {
    Join(Kept(text, secret))
  }

  type Pattern = string -> seq<(nat, nat)>

  /** Spans of a text, in order and apart: what a pattern's substitution stars out. */
  predicate Spans(text: string, spans: seq<(nat, nat)>) {
    && (forall k :: 0 <= k < |spans| ==> spans[k].0 <= spans[k].1 <= |text|)
    && forall k, l :: 0 <= k < l < |spans| ==> spans[k].1 <= spans[l].0
  }

  /** The text around the spans. */
  function Around(text: string, spans: seq<(nat, nat)>, from: nat): (pieces: seq<string>)
    requires Spans(text, spans) && from <= |text| && forall k :: 0 <= k < |spans| ==> from <= spans[k].0
    ensures pieces != []
    decreases |spans|
  {
    if spans == [] then [text[from..]]
    else [text[from..spans[0].0]] + Around(text, spans[1..], spans[0].1)
  }

  /** A text rebuilt from parts of another, with the mark between them. */
  ghost predicate CutFrom(text: string, out: string) {
    exists pieces: seq<string> :: pieces != [] && out == Join(pieces) && forall p :: p in pieces ==> Contains(text, p)
  }

  /** The secrets that starring can neither leave behind nor bring back. */
  predicate Sturdy(s: string) {
    s != "" && s[0] != '*' && s[|s| - 1] != '*' && forall i :: 0 <= i <= |s| - 3 ==> !MarkAt(s, i)
  }

  predicate MarkAt(s: string, i: int)
    requires 0 <= i <= |s| - 3
  {
    s[i] == s[i + 1] == s[i + 2] == '*'
  }

  lemma StarFreeIsSturdy(s: string)
    requires s != "" && '*' !in s
    ensures Sturdy(s)
  {
  }

  /** An occurrence of a sturdy secret lies within one piece. */
  lemma {:induction false} WithinPiece(pieces: seq<string>, s: string)
    requires pieces != [] && Sturdy(s) && Contains(Join(pieces), s)
    ensures exists p :: p in pieces && Contains(p, s)
    decreases |pieces|
  {
    var text := Join(pieces);
    var i: nat :| At(text, s, i);
    var p := pieces[0];
    if |pieces| == 1 {
      assert p in pieces && Contains(p, s);
    } else {
      var rest := Join(pieces[1..]);
      if i + |s| <= |p| {
        assert At(p, s, i);
        assert p in pieces && Contains(p, s);
      } else if |p| + 3 <= i {
        assert text[|p| + 3..|text|] == rest;
        InPart(text, |p| + 3, |text|, s, i - |p| - 3);
        WithinPiece(pieces[1..], s);
      } else {
        Straddles(p, rest, s, i);
      }
    }
  }

  lemma Straddles(p: string, rest: string, s: string, i: nat)
    requires At(p + REDACTED + rest, s, i) && s != "" && |p| < i + |s| && i < |p| + 3
    ensures !Sturdy(s)
  {
    var text := p + REDACTED + rest;
    assert text[|p|] == text[|p| + 1] == text[|p| + 2] == '*';
    if i < |p| && |p| + 3 <= i + |s| {
      var j := |p| - i;
      assert s[j] == text[i + j] && s[j + 1] == text[i + (j + 1)] && s[j + 2] == text[i + (j + 2)];
      assert MarkAt(s, j);
    } else if i < |p| {
      assert s[|s| - 1] == text[i + (|s| - 1)];
    } else {
      assert s[0] == text[i + 0];
    }
  }

  lemma PartContains(text: string, a: nat, b: nat, s: string)
    requires a <= b <= |text| && Contains(text[a..b], s)
    ensures Contains(text, s)
  {
    var i: nat :| At(text[a..b], s, i);
    InPart(text, a, b, s, i);
  }

  lemma ContainsTwice(a: string, b: string, c: string)
    requires Contains(a, b) && Contains(b, c)
    ensures Contains(a, c)
  {
    var i: nat :| At(a, b, i);
    assert a[i..i + |b|] == b;
    PartContains(a, i, i + |b|, c);
  }

  /** Nothing sturdy comes into a text by cutting and starring it. */
  lemma NeverBack(text: string, out: string, s: string)
    requires CutFrom(text, out) && Sturdy(s) && !Contains(text, s)
    ensures !Contains(out, s)
  {
    var pieces: seq<string> :| pieces != [] && out == Join(pieces) && forall p :: p in pieces ==> Contains(text, p);
    if Contains(out, s) {
      WithinPiece(pieces, s);
      var p :| p in pieces && Contains(p, s);
      ContainsTwice(text, p, s);
    }
  }

  // ------------------------------------------------------------------ the two passes

  lemma HeadClean(text: string, secret: string)
    requires secret != "" && Find(text, secret).Some?
    ensures var head := text[..Find(text, secret).value]; Contains(text, head) && !Contains(head, secret)
  {
    var i := Find(text, secret).value;
    var head := text[..i];
    assert At(text, head, 0);
    forall j: nat ensures !At(head, secret, j) {
      if j + |secret| <= i {
        assert text[0..i] == head;
        InPart(text, 0, i, secret, j);
        assert !At(text, secret, j);
      }
    }
  }

  lemma Whole(text: string)
    ensures Contains(text, text)
  {
    assert At(text, text, 0);
  }

  lemma TailContains(text: string, from: nat, p: string)
    requires from <= |text| && Contains(text[from..], p)
    ensures Contains(text, p)
  {
    assert text[from..|text|] == text[from..];
    PartContains(text, from, |text|, p);
  }

  lemma {:induction false} KeptPart(text: string, secret: string, k: nat)
    requires secret != "" && k < |Kept(text, secret)|
    ensures Contains(text, Kept(text, secret)[k]) && !Contains(Kept(text, secret)[k], secret)
    decreases |text|
  {
    var i := Find(text, secret);
    if i.None? {
      Whole(text);
    } else if k == 0 {
      HeadClean(text, secret);
    } else {
      var tail := text[i.value + |secret|..];
      var p := Kept(tail, secret)[k - 1];
      assert Kept(text, secret)[k] == p;
      KeptPart(tail, secret, k - 1);
      TailContains(text, i.value + |secret|, p);
    }
  }

  lemma KeptParts(text: string, secret: string)
    requires secret != ""
    ensures forall p :: p in Kept(text, secret) ==> Contains(text, p) && !Contains(p, secret)
  {
    forall p | p in Kept(text, secret) ensures Contains(text, p) && !Contains(p, secret) {
      var k :| 0 <= k < |Kept(text, secret)| && Kept(text, secret)[k] == p;
      KeptPart(text, secret, k);
    }
  }

  lemma ReplaceCuts(text: string, secret: string)
    requires secret != ""
    ensures CutFrom(text, Replace(text, secret))
    ensures Sturdy(secret) ==> !Contains(Replace(text, secret), secret)
    ensures !Contains(text, secret) ==> Replace(text, secret) == text
  {
    KeptParts(text, secret);
    if Sturdy(secret) && Contains(Replace(text, secret), secret) {
      WithinPiece(Kept(text, secret), secret);
    }
  }

  lemma {:induction false} AroundParts(text: string, spans: seq<(nat, nat)>, from: nat)
    requires Spans(text, spans) && from <= |text| && forall k :: 0 <= k < |spans| ==> from <= spans[k].0
    ensures forall p :: p in Around(text, spans, from) ==> Contains(text, p)
    decreases |spans|
  {
    if spans == [] {
      assert At(text, text[from..], from);
    } else {
      assert At(text, text[from..spans[0].0], from);
      AroundParts(text, spans[1..], spans[0].1);
    }
  }

  /** re.sub with a replacement that keeps what surrounds the secret. */
  function StarOut(text: string, spans: seq<(nat, nat)>): string
    requires Spans(text, spans)
  {
    Join(Around(text, spans, 0))
  }

  lemma StarOutCuts(text: string, spans: seq<(nat, nat)>)
    requires Spans(text, spans)
    ensures CutFrom(text, StarOut(text, spans))
  {
    AroundParts(text, spans, 0);
  }

  // ------------------------------------------------------------------ and nothing else is lost

  /** Pieces with a cut between each two. */
  function Spliced(pieces: seq<string>, cuts: seq<string>): string
    requires |pieces| == |cuts| + 1
  {
    if cuts == [] then pieces[0] else pieces[0] + cuts[0] + Spliced(pieces[1..], cuts[1..])
  }

  function Same(s: string, n: nat): seq<string> {
    if n == 0 then [] else [s] + Same(s, n - 1)
  }

  lemma {:induction false} SameLength(s: string, n: nat)
    ensures |Same(s, n)| == n
  {
    if n > 0 { SameLength(s, n - 1); }
  }

  lemma {:induction false} JoinSplices(pieces: seq<string>)
    requires pieces != []
    ensures |Same(REDACTED, |pieces| - 1)| == |pieces| - 1 && Join(pieces) == Spliced(pieces, Same(REDACTED, |pieces| - 1))
    decreases |pieces|
  {
    SameLength(REDACTED, |pieces| - 1);
    if |pieces| > 1 {
      JoinSplices(pieces[1..]);
      assert Same(REDACTED, |pieces| - 1)[1..] == Same(REDACTED, |pieces| - 2);
    }
  }

  lemma SpliceFirst(h: string, rest: seq<string>, cut: string)
    requires rest != []
    ensures |Same(cut, |rest|)| == |rest| && |Same(cut, |rest| - 1)| == |rest| - 1
    ensures Spliced([h] + rest, Same(cut, |rest|)) == h + cut + Spliced(rest, Same(cut, |rest| - 1))
  {
    SameLength(cut, |rest|);
    SameLength(cut, |rest| - 1);
    assert Same(cut, |rest|)[1..] == Same(cut, |rest| - 1) && ([h] + rest)[1..] == rest;
  }

  /** The occurrences that are cut out are the secret, and what is around them is all the rest. */
  lemma {:induction false} KeptRebuilds(text: string, secret: string)
    requires secret != ""
    ensures var cuts := Same(secret, |Kept(text, secret)| - 1);
            |cuts| == |Kept(text, secret)| - 1 && Spliced(Kept(text, secret), cuts) == text
    decreases |text|
  {
    var i := Find(text, secret);
    if i.None? {
      assert Kept(text, secret) == [text] && Same(secret, 0) == [];
    } else {
      var head, tail := text[..i.value], text[i.value + |secret|..];
      KeptRebuilds(tail, secret);
      SpliceFirst(head, Kept(tail, secret), secret);
      CutOut(text, secret, i.value);
    }
  }

  lemma CutOut(text: string, secret: string, i: nat)
    requires At(text, secret, i)
    ensures text == text[..i] + secret + text[i + |secret|..]
  {
    assert text[i..i + |secret|] == secret;
  }

  /** So replacing a secret puts the mark where the secret was, and leaves all else as it was. */
  lemma ReplacesOnly(text: string, secret: string)
    requires secret != ""
    ensures var pieces := Kept(text, secret);
            && |Same(secret, |pieces| - 1)| == |Same(REDACTED, |pieces| - 1)| == |pieces| - 1
            && Spliced(pieces, Same(secret, |pieces| - 1)) == text
            && Spliced(pieces, Same(REDACTED, |pieces| - 1)) == Replace(text, secret)
  {
    KeptRebuilds(text, secret);
    JoinSplices(Kept(text, secret));
  }

  function Cut(text: string, spans: seq<(nat, nat)>): seq<string>
    requires Spans(text, spans)
  {
    seq(|spans|, k requires 0 <= k < |spans| => text[spans[k].0..spans[k].1])
  }

  lemma {:induction false} AroundRebuilds(text: string, spans: seq<(nat, nat)>, from: nat)
    requires Spans(text, spans) && from <= |text| && forall k :: 0 <= k < |spans| ==> from <= spans[k].0
    ensures |Around(text, spans, from)| == |spans| + 1 && Spliced(Around(text, spans, from), Cut(text, spans)) == text[from..]
    decreases |spans|
  {
    if spans != [] {
      AroundRebuilds(text, spans[1..], spans[0].1);
      assert Cut(text, spans)[1..] == Cut(text, spans[1..]);
      assert Around(text, spans, from)[1..] == Around(text, spans[1..], spans[0].1);
      assert text[from..] == text[from..spans[0].0] + text[spans[0].0..spans[0].1] + text[spans[0].1..];
    }
  }

  /** A pattern pass puts the mark where its spans were, and leaves all else as it was. */
  lemma StarsOnly(text: string, spans: seq<(nat, nat)>)
    requires Spans(text, spans)
    ensures var pieces := Around(text, spans, 0);
            && |pieces| == |spans| + 1 && |Same(REDACTED, |spans|)| == |spans|
            && Spliced(pieces, Cut(text, spans)) == text && Spliced(pieces, Same(REDACTED, |spans|)) == StarOut(text, spans)
  {
    AroundRebuilds(text, spans, 0);
    JoinSplices(Around(text, spans, 0));
    assert text[0..] == text;
  }

  // ------------------------------------------------------------------ scrubbing in any order

  function Scrubbed(text: string, secrets: seq<string>): string {
    if secrets == [] then text
    else
      var t := Scrubbed(text, secrets[..|secrets| - 1]);
      if secrets[|secrets| - 1] == "" then t else Replace(t, secrets[|secrets| - 1])
  }

  /** No sturdy secret of the list is left, whatever the order; nor does the text gain one. */
  lemma {:induction false} ScrubbedClean(text: string, secrets: seq<string>, s: string)
    requires Sturdy(s) && (s in secrets || !Contains(text, s))
    ensures !Contains(Scrubbed(text, secrets), s)
  {
    if secrets != [] {
      var init, last := secrets[..|secrets| - 1], secrets[|secrets| - 1];
      assert secrets == init + [last];
      var t := Scrubbed(text, init);
      if last != "" {
        ReplaceCuts(t, last);
      }
      if s in init || !Contains(text, s) {
        ScrubbedClean(text, init, s);
        if last != "" { NeverBack(t, Replace(t, last), s); }
      }
    }
  }

  /** Scrubbing again changes nothing. */
  lemma {:induction false} ScrubbedOnce(text: string, secrets: seq<string>)
    requires forall s :: s in secrets ==> s == "" || !Contains(text, s)
    ensures Scrubbed(text, secrets) == text
  {
    if secrets != [] {
      ScrubbedOnce(text, secrets[..|secrets| - 1]);
      if secrets[|secrets| - 1] != "" { ReplaceCuts(text, secrets[|secrets| - 1]); }
    }
  }

  /** config.scrub_secrets. */
  method ScrubSecrets(message: string, secrets: seq<string>) returns (out: string)
    ensures out == Scrubbed(message, secrets)
    ensures forall s :: s in secrets && Sturdy(s) ==> !Contains(out, s)
    ensures (forall s :: s in secrets ==> s == "" || Sturdy(s)) ==> Scrubbed(out, secrets) == out
  {
    out := message;
    for i := 0 to |secrets|
      invariant out == Scrubbed(message, secrets[..i])
    {
      assert secrets[..i + 1][..i] == secrets[..i];
      if secrets[i] != "" {
        out := Replace(out, secrets[i]);
      }
    }
    assert secrets[..|secrets|] == secrets;
    forall s | s in secrets && Sturdy(s) ensures !Contains(out, s) { ScrubbedClean(message, secrets, s); }
    if forall s :: s in secrets ==> s == "" || Sturdy(s) {
      ScrubbedOnce(out, secrets);
    }
  }

  // ------------------------------------------------------------------ sanitize

  lemma {:induction false} LongestExists(secrets: set<string>)
    requires secrets != {}
    ensures exists s :: s in secrets && forall t :: t in secrets ==> |t| <= |s|
  {
    var x :| x in secrets;
    if secrets != {x} {
      LongestExists(secrets - {x});
      var s :| s in secrets - {x} && forall t :: t in secrets - {x} ==> |t| <= |s|;
      var best := if |s| < |x| then x else s;
      assert best in secrets && forall t :: t in secrets ==> |t| <= |best|;
    }
  }

  ghost predicate LongestFirst(order: seq<string>) {
    forall i, j :: 0 <= i < j < |order| ==> |order[j]| <= |order[i]| && order[i] != order[j]
  }

  /** What is still to do is no longer than anything done, and different. */
  ghost predicate Behind(order: seq<string>, todo: set<string>) {
    forall i, t :: 0 <= i < |order| && t in todo ==> |t| <= |order[i]| && order[i] != t
  }

  lemma NextInOrder(order: seq<string>, todo: set<string>, s: string)
    requires LongestFirst(order) && Behind(order, todo) && s in todo && forall t :: t in todo ==> |t| <= |s|
    ensures LongestFirst(order + [s]) && Behind(order + [s], todo - {s})
  {
  }

  lemma ScrubbedSnoc(text: string, order: seq<string>, s: string)
    requires s != ""
    ensures Scrubbed(text, order + [s]) == Replace(Scrubbed(text, order), s)
  {
  }

  /** The literal pass: the distinct non-empty secrets, longest first. */
  method LiteralPass(text: string, secrets: seq<string>) returns (out: string, ghost order: seq<string>)
    ensures OrderOf(order, secrets) && out == Scrubbed(text, order)
  {
    var todo := set s | s in secrets && s != "";
    out, order := text, [];
    while todo != {}
      invariant out == Scrubbed(text, order) && LongestFirst(order) && Behind(order, todo)
      invariant forall s :: (s in order || s in todo) <==> s in secrets && s != ""
      decreases |todo|
    {
      LongestExists(todo);
      var s :| s in todo && forall t :: t in todo ==> |t| <= |s|;
      NextInOrder(order, todo, s);
      ScrubbedSnoc(text, order, s);
      out := Replace(out, s);
      todo := todo - {s};
      order := order + [s];
    }
  }

  /** A pattern finds spans of whatever text it is given. */
  ghost predicate FindsSpans(patterns: seq<Pattern>) {
    forall p, t :: p in patterns ==> Spans(t, p(t))
  }

  /** Each pattern in turn, on what the last one left. */
  ghost function Starred(text: string, patterns: seq<Pattern>): string
    requires FindsSpans(patterns)
  {
    if patterns == [] then text
    else
      var t := Starred(text, patterns[..|patterns| - 1]);
      assert patterns[|patterns| - 1] in patterns;
      StarOut(t, patterns[|patterns| - 1](t))
  }

  /** No pattern pass puts back a sturdy secret that was gone. */
  lemma {:induction false} StarredClean(text: string, patterns: seq<Pattern>, s: string)
    requires FindsSpans(patterns) && Sturdy(s) && !Contains(text, s)
    ensures !Contains(Starred(text, patterns), s)
  {
    if patterns != [] {
      var p, t := patterns[|patterns| - 1], Starred(text, patterns[..|patterns| - 1]);
      assert p in patterns;
      StarredClean(text, patterns[..|patterns| - 1], s);
      StarOutCuts(t, p(t));
      NeverBack(t, StarOut(t, p(t)), s);
    }
  }

  /** The pattern passes: each stars out the spans its pattern finds in what the last one left. */
  method PatternPass(text: string, patterns: seq<Pattern>) returns (out: string)
    requires FindsSpans(patterns)
    ensures out == Starred(text, patterns)
    ensures forall s :: Sturdy(s) && !Contains(text, s) ==> !Contains(out, s)
  {
    out := text;
    for k := 0 to |patterns|
      invariant out == Starred(text, patterns[..k])
    {
      assert patterns[..k + 1][..k] == patterns[..k] && patterns[k] in patterns;
      out := StarOut(out, patterns[k](out));
    }
    assert patterns[..|patterns|] == patterns;
    forall s | Sturdy(s) && !Contains(text, s) ensures !Contains(out, s) { StarredClean(text, patterns, s); }
  }

  /** The order the literal pass takes: the distinct non-empty secrets, longest first. */
  ghost predicate OrderOf(order: seq<string>, secrets: seq<string>) {
    LongestFirst(order) && forall s :: s in order <==> s in secrets && s != ""
  }

  /** What a text contains is shorter, unless it is the text itself. */
  lemma PartIsWhole(text: string, s: string)
    requires Contains(text, s)
    ensures |s| < |text| || s == text
  {
    var i: nat :| At(text, s, i);
    assert text[i..i + |s|] == s;
  }

  /** A secret that holds another, as a URL holds its password, is replaced before the other is. */
  lemma WholeFirst(order: seq<string>, secrets: seq<string>, i: nat, j: nat)
    requires OrderOf(order, secrets) && i < |order| && j < |order|
    requires order[i] != order[j] && Contains(order[i], order[j])
    ensures i < j
  {
    PartIsWhole(order[i], order[j]);
  }

  /** What sanitize may return; secrets of one length come in any order. */
  ghost predicate Sanitized(text: string, secrets: seq<string>, patterns: seq<Pattern>, out: string)
    requires FindsSpans(patterns)
  {
    exists order :: OrderOf(order, secrets) && out == Starred(Scrubbed(text, order), patterns)
  }

  /** No sturdy secret is left, of any length and in any overlap, and none appears. */
  lemma SanitizedClean(text: string, secrets: seq<string>, patterns: seq<Pattern>, out: string, s: string)
    requires FindsSpans(patterns) && Sanitized(text, secrets, patterns, out)
    requires Sturdy(s) && (s in secrets || !Contains(text, s))
    ensures !Contains(out, s)
  {
    var order :| OrderOf(order, secrets) && out == Starred(Scrubbed(text, order), patterns);
    ScrubbedClean(text, order, s);
    StarredClean(Scrubbed(text, order), patterns, s);
  }

  /** sanitize: no sturdy secret is left, at any length and in any overlap, and no pass puts back
      what was never there. */
  method Sanitize(text: string, secrets: seq<string>, patterns: seq<Pattern>) returns (out: string)
    requires FindsSpans(patterns)
    ensures Sanitized(text, secrets, patterns, out)
    ensures forall s :: s in secrets && Sturdy(s) ==> !Contains(out, s)
    ensures forall s :: Sturdy(s) && !Contains(text, s) ==> !Contains(out, s)
  {
    ghost var order;
    out, order := LiteralPass(text, secrets);
    ghost var literal := out;
    out := PatternPass(out, patterns);
    assert OrderOf(order, secrets) && out == Starred(literal, patterns);
    forall s | Sturdy(s) && (s in secrets || !Contains(text, s)) ensures !Contains(out, s) {
      SanitizedClean(text, secrets, patterns, out, s);
    }
  }

  // ------------------------------------------------------------------ the exact limit

  /** A secret that begins or ends with a star, or has three in a row, is put back by the mark of
      a shorter one: redacting `q` out of a text that never held the secret leaves the secret. */
  lemma BroughtBack(s: string, q: char)
    requires |s| > 1 && !Sturdy(s) && q !in s
    ensures exists text :: !Contains(text, s) && Contains(Scrubbed(text, [s, [q]]), s)
  {
    var u, v, i := Hole(s);
    var text := u + [q] + v;
    OneMark(u, q, v, s);
    assert [s, [q]][..1] == [s] && [s][..0] == [];
    ReplaceCuts(text, s);
    assert Scrubbed(text, [s]) == Replace(Scrubbed(text, []), s) == text;
    assert Scrubbed(text, [s, [q]]) == u + REDACTED + v;
    assert At(u + REDACTED + v, s, i);
  }

  /** Where the mark goes for the secret to read through it. */
  lemma Hole(s: string) returns (u: string, v: string, i: nat)
    requires |s| > 1 && !Sturdy(s)
    ensures (forall c :: c in u || c in v ==> c in s) && |u| + |v| < |s|
    ensures At(u + REDACTED + v, s, i)
  {
    if s[0] == '*' {
      u, v, i := "", s[1..], 2;
    } else if s[|s| - 1] == '*' {
      u, v, i := s[..|s| - 1], "", 0;
    } else {
      var k :| 0 <= k <= |s| - 3 && MarkAt(s, k);
      u, v, i := s[..k], s[k + 3..], 0;
      assert u + REDACTED + v == s;
    }
  }

  lemma OneMark(u: string, q: char, v: string, s: string)
    requires q !in u && q !in v && |u| + |v| < |s| && q !in s
    ensures Replace(u + [q] + v, [q]) == u + REDACTED + v
    ensures !Contains(u + [q] + v, s)
  {
    var text := u + [q] + v;
    assert At(text, [q], |u|);
    forall j: nat | j < |u| ensures !At(text, [q], j) { assert text[j + 0] != [q][0]; }
    assert Find(text, [q]) == Some(|u|);
    assert text[..|u|] == u && text[|u| + 1..] == v;
    forall j: nat ensures !At(v, [q], j) { assert j < |v| ==> v[j + 0] != [q][0]; }
    assert Kept(v, [q]) == [v];
    assert Kept(text, [q]) == [u] + [v];
    assert ([u] + [v])[1..] == [v];
    assert Join([u] + [v]) == u + REDACTED + Join([v]);
    NotWithin(text, s, |u|);
  }

  lemma NotWithin(text: string, s: string, i: nat)
    requires i < |text| && text[i] !in s && |text| <= |s|
    ensures !Contains(text, s)
  {
    assert s[i] in s;
    forall j: nat ensures !At(text, s, j) {
      assert j + |s| <= |text| ==> text[j + i] != s[i];
    }
  }

  lemma LoneStar()
    ensures Contains(Scrubbed("*", ["*"]), "*")
  {
    ScrubbedSnoc("*", [], "*");
    assert [] + ["*"] == ["*"];
    assert At("*", "*", 0);
    assert Find("*", "*") == Some(0);
    assert "*"[..0] == "" && "*"[1..] == "";
    assert Kept("*", "*") == [""] + Kept("", "*") == ["", ""];
    assert ["", ""][1..] == [""];
    assert At(REDACTED, "*", 0);
    assert Scrubbed("*", ["*"]) == REDACTED;
  }

  /** Gone from every text that scrub_secrets returns, whatever else is redacted with it. */
  ghost predicate AlwaysScrubbed(s: string) {
    forall text, secrets :: s in secrets ==> !Contains(Scrubbed(text, secrets), s)
  }

  /** Gone from every text that sanitize returns, whatever else it redacts and its patterns match. */
  ghost predicate AlwaysSanitized(s: string) {
    forall text, secrets, patterns: seq<Pattern>, out ::
      s in secrets && FindsSpans(patterns) && Sanitized(text, secrets, patterns, out) ==> !Contains(out, s)
  }

  /** A secret that is not sturdy comes back in some text, with secrets taken in the order the
      literal pass takes them. */
  lemma ComesBack(s: string, q: char) returns (text: string, secrets: seq<string>)
    requires s != "" && !Sturdy(s) && q !in s
    ensures s in secrets && OrderOf(secrets, secrets) && Contains(Scrubbed(text, secrets), s)
  {
    if |s| > 1 {
      BroughtBack(s, q);
      text :| !Contains(text, s) && Contains(Scrubbed(text, [s, [q]]), s);
      secrets := [s, [q]];
    } else {
      LoneStar();
      assert s == "*";
      text, secrets := "*", ["*"];
    }
  }

  /** The limit, exactly: a secret is always gone, from what scrub_secrets and from what sanitize
      returns, if and only if it is sturdy. */
  lemma GoneExactly(s: string, q: char)
    requires s != "" && q !in s
    ensures AlwaysScrubbed(s) <==> Sturdy(s)
    ensures AlwaysSanitized(s) <==> Sturdy(s)
  {
    if Sturdy(s) {
      forall text, secrets | s in secrets ensures !Contains(Scrubbed(text, secrets), s) {
        ScrubbedClean(text, secrets, s);
      }
      forall text, secrets, patterns: seq<Pattern>, out
        | s in secrets && FindsSpans(patterns) && Sanitized(text, secrets, patterns, out)
        ensures !Contains(out, s)
      {
        SanitizedClean(text, secrets, patterns, out, s);
      }
    } else {
      var text, secrets := ComesBack(s, q);
      assert FindsSpans([]) && Starred(Scrubbed(text, secrets), []) == Scrubbed(text, secrets);
      assert Sanitized(text, secrets, [], Scrubbed(text, secrets));
    }
  }
}
