/** Completing an SDP answer without trickle ICE (sdp.py): candidates go into their own media
    sections, everything that is not IPv4 goes, and every section is closed. */
module SdpCandidates {
  import opened Options

  type Line = string

  const MEDIA := "m="
  const MID := "a=mid:"
  const CANDIDATE := "candidate:"
  const CANDIDATE_LINE := "a=candidate:"
  const END := "a=end-of-candidates"

  /** Whether the fifth word of a candidate is an IPv4 address. */
  type Address = string -> bool

  datatype Candidate = Candidate(text: string, mid: Option<string>, index: Option<int>)

  predicate StartsWith(s: string, prefix: string) { prefix <= s }

  /** is_ipv4_candidate */
  predicate IsIpv4(v4: Address, candidate: string) {
    StartsWith(candidate, CANDIDATE) && '\n' !in candidate && '\r' !in candidate && v4(candidate)
  }

  predicate IsMedia(line: Line) { StartsWith(line, MEDIA) }

  /** Not a candidate line, or an IPv4 one. */
  predicate Stays(v4: Address, line: Line) {
    !StartsWith(line, CANDIDATE_LINE) || IsIpv4(v4, line[2..])
  }

  // ---------- the sections of a description ----------

  datatype Sdp = Sdp(head: seq<Line>, sections: seq<seq<Line>>)

  function Taken(p: Sdp, line: Line): Sdp {
    if IsMedia(line) then p.(sections := p.sections + [[line]])
    else if p.sections == [] then p.(head := p.head + [line])
    else
      var n := |p.sections| - 1;
      p.(sections := p.sections[..n] + [p.sections[n] + [line]])
  }

  function Parse(lines: seq<Line>): Sdp {
    if lines == [] then Sdp([], []) else Taken(Parse(lines[..|lines| - 1]), lines[|lines| - 1])
  }

  function Starts(lines: seq<Line>): seq<nat> {
    if lines == [] then []
    else Starts(lines[..|lines| - 1]) + if IsMedia(lines[|lines| - 1]) then [|lines| - 1] else []
  }

  ghost predicate NoMedia(lines: seq<Line>) { forall l :: l in lines ==> !IsMedia(l) }

  ghost predicate IsSection(s: seq<Line>) { s != [] && IsMedia(s[0]) && NoMedia(s[1..]) }

  ghost predicate WellParsed(p: Sdp) { NoMedia(p.head) && forall s :: s in p.sections ==> IsSection(s) }

  function Concat(sections: seq<seq<Line>>): seq<Line> {
    if sections == [] then [] else Concat(sections[..|sections| - 1]) + sections[|sections| - 1]
  }

  lemma ConcatSnoc(sections: seq<seq<Line>>, s: seq<Line>)
    ensures Concat(sections + [s]) == Concat(sections) + s
  {
    assert (sections + [s])[..|sections|] == sections;
  }

  /** Parsing loses nothing and leaves sections that begin with their only media line. */
  lemma {:induction false} ParseIs(lines: seq<Line>)
    ensures WellParsed(Parse(lines)) && Parse(lines).head + Concat(Parse(lines).sections) == lines
  {
    if lines == [] {
    } else {
      ParseIs(lines[..|lines| - 1]);
      TakenIs(Parse(lines[..|lines| - 1]), lines[|lines| - 1]);
      assert lines == lines[..|lines| - 1] + [lines[|lines| - 1]];
    }
  }

  lemma TakenIs(p: Sdp, line: Line)
    requires WellParsed(p)
    ensures WellParsed(Taken(p, line))
    ensures Taken(p, line).head + Concat(Taken(p, line).sections) == p.head + Concat(p.sections) + [line]
  {
    var t := Taken(p, line);
    if IsMedia(line) {
      ConcatSnoc(p.sections, [line]);
    } else if p.sections == [] {
    } else {
      var n := |p.sections| - 1;
      var last := p.sections[n];
      assert IsSection(last) && (last + [line])[1..] == last[1..] + [line];
      ConcatSnoc(p.sections[..n], last + [line]);
    }
  }

  /** A section after what has been parsed is one more section. */
  lemma {:induction false} ParseSection(lines: seq<Line>, s: seq<Line>)
    requires IsSection(s)
    ensures Parse(lines + s) == Sdp(Parse(lines).head, Parse(lines).sections + [s])
  {
    var init, last := s[..|s| - 1], s[|s| - 1];
    assert (lines + s)[..|lines + s| - 1] == lines + init;
    if |s| == 1 {
      assert lines + init == lines && s == [last];
    } else {
      assert init[1..] == s[1..][..|s| - 2];
      assert last == s[1..][|s| - 2];
      ParseSection(lines, init);
      assert init + [last] == s;
    }
  }

  lemma {:induction false} ParseHead(head: seq<Line>)
    requires NoMedia(head)
    ensures Parse(head) == Sdp(head, [])
  {
    if head == [] {
    } else {
      assert head[|head| - 1] in head;
      ParseHead(head[..|head| - 1]);
      assert head == head[..|head| - 1] + [head[|head| - 1]];
    }
  }

  lemma {:induction false} ParseBack(p: Sdp)
    requires WellParsed(p)
    ensures Parse(p.head + Concat(p.sections)) == p
    decreases |p.sections|
  {
    if p.sections == [] {
      assert p.head + [] == p.head;
      ParseHead(p.head);
    } else {
      var n := |p.sections| - 1;
      var init, last := p.(sections := p.sections[..n]), p.sections[n];
      assert p.sections == init.sections + [last];
      assert WellParsed(init);
      ParseBack(init);
      ParseSection(p.head + Concat(init.sections), last);
      OneMoreSection(p.head, init.sections, last);
    }
  }

  lemma OneMoreSection(head: seq<Line>, sections: seq<seq<Line>>, s: seq<Line>)
    ensures head + Concat(sections + [s]) == (head + Concat(sections)) + s
  {
    ConcatSnoc(sections, s);
  }

  // ---------- duplicates ----------

  /** dict.fromkeys: the first of each. */
  function Dedup(s: seq<Line>): seq<Line> {
    if s == [] then []
    else
      var before, x := Dedup(s[..|s| - 1]), s[|s| - 1];
      if x in before then before else before + [x]
  }

  ghost predicate Distinct(s: seq<Line>) { forall i, j :: 0 <= i < j < |s| ==> s[i] != s[j] }

  lemma {:induction false} DedupIs(s: seq<Line>)
    ensures Distinct(Dedup(s)) && forall x :: x in Dedup(s) <==> x in s
  {
    if s == [] {
    } else {
      DedupIs(s[..|s| - 1]);
      assert s == s[..|s| - 1] + [s[|s| - 1]];
    }
  }

  lemma {:induction false} DedupOfDistinct(s: seq<Line>)
    requires Distinct(s)
    ensures Dedup(s) == s
  {
    if s == [] {
    } else {
      var init, x := s[..|s| - 1], s[|s| - 1];
      DedupOfDistinct(init);
      assert s == init + [x];
      assert forall i :: 0 <= i < |init| ==> init[i] == s[i];
    }
  }

  lemma {:induction false} DedupAbsorbs(a: seq<Line>, b: seq<Line>)
    requires forall x :: x in b ==> x in a
    ensures Dedup(a + b) == Dedup(a)
  {
    if b == [] {
      assert a + b == a;
    } else {
      var init, x := b[..|b| - 1], b[|b| - 1];
      assert (a + b)[..|a + b| - 1] == a + init;
      DedupAbsorbs(a, init);
      DedupIs(a);
      assert x in b;
    }
  }

  lemma {:induction false} DedupKeepsFirst(s: seq<Line>)
    requires s != []
    ensures Dedup(s) != [] && Dedup(s)[0] == s[0]
  {
    if |s| == 1 {
    } else {
      DedupKeepsFirst(s[..|s| - 1]);
    }
  }

  lemma {:induction false} DistinctCounts(s: seq<Line>, x: Line)
    requires Distinct(s)
    ensures multiset(s)[x] == if x in s then 1 else 0
  {
    if s == [] {
    } else {
      var init := s[..|s| - 1];
      assert s == init + [s[|s| - 1]];
      DistinctCounts(init, x);
    }
  }

  // ---------- embed_candidates ----------

  function Filter(v4: Address, lines: seq<Line>, dropEnd: bool): seq<Line> {
    if lines == [] then []
    else
      var before, l := Filter(v4, lines[..|lines| - 1], dropEnd), lines[|lines| - 1];
      if Stays(v4, l) && !(dropEnd && l == END) then before + [l] else before
  }

  /** The section of each mid; a later line wins. */
  function MidsIn(mids: map<string, nat>, lines: seq<Line>, section: nat): map<string, nat> {
    if lines == [] then mids
    else
      var before, l := MidsIn(mids, lines[..|lines| - 1], section), lines[|lines| - 1];
      if StartsWith(l, MID) then before[l[|MID|..] := section] else before
  }

  function Mids(sections: seq<seq<Line>>): map<string, nat> {
    if sections == [] then map[]
    else MidsIn(Mids(sections[..|sections| - 1]), sections[|sections| - 1], |sections| - 1)
  }

  /** The section a candidate belongs to, if it can be told. */
  function Route(v4: Address, c: Candidate, mids: map<string, nat>, count: nat): Option<nat> {
    if !IsIpv4(v4, c.text) then None
    else if c.mid.Some? && c.mid.value in mids then Some(mids[c.mid.value])
    else if c.index.Some? && 0 <= c.index.value < count then Some(c.index.value)
    else None
  }

  function LineOf(c: Candidate): Line { "a=" + c.text }

  function Extra(v4: Address, candidates: seq<Candidate>, mids: map<string, nat>, count: nat, section: nat): seq<Line> {
    if candidates == [] then []
    else
      var c := candidates[|candidates| - 1];
      Extra(v4, candidates[..|candidates| - 1], mids, count, section)
        + if Route(v4, c, mids, count) == Some(section) then [LineOf(c)] else []
  }

  function Closed(v4: Address, section: seq<Line>, extra: seq<Line>): seq<Line> {
    Dedup(Filter(v4, section, true) + extra) + [END]
  }

  function Rewritten(v4: Address, p: Sdp, candidates: seq<Candidate>): Sdp {
    var mids, count := Mids(p.sections), |p.sections|;
    Sdp(Filter(v4, p.head, false),
        seq(count, i requires 0 <= i < count => Closed(v4, p.sections[i], Extra(v4, candidates, mids, count, i))))
  }

  function EmbedLines(v4: Address, lines: seq<Line>, candidates: seq<Candidate>): seq<Line> {
    var p := Parse(lines);
    if p.sections == [] then lines
    else
      var r := Rewritten(v4, p, candidates);
      r.head + Concat(r.sections)
  }

  // ---------- what a rewritten section holds ----------

  lemma {:induction false} FilterIs(v4: Address, lines: seq<Line>, dropEnd: bool)
    ensures forall x :: x in Filter(v4, lines, dropEnd) <==> x in lines && Stays(v4, x) && !(dropEnd && x == END)
  {
    if lines == [] {
    } else {
      FilterIs(v4, lines[..|lines| - 1], dropEnd);
      assert lines == lines[..|lines| - 1] + [lines[|lines| - 1]];
    }
  }

  lemma {:induction false} FilterFixed(v4: Address, lines: seq<Line>, dropEnd: bool)
    requires forall x :: x in lines ==> Stays(v4, x) && !(dropEnd && x == END)
    ensures Filter(v4, lines, dropEnd) == lines
  {
    if lines == [] {
    } else {
      var init, l := lines[..|lines| - 1], lines[|lines| - 1];
      assert l in lines && lines == init + [l];
      FilterFixed(v4, init, dropEnd);
    }
  }

  lemma {:induction false} FilterKeepsFirst(v4: Address, lines: seq<Line>)
    requires lines != [] && IsMedia(lines[0])
    ensures Filter(v4, lines, true) != [] && Filter(v4, lines, true)[0] == lines[0]
  {
    if |lines| == 1 {
      MediaStays(v4, lines[0]);
      assert Filter(v4, lines[..0], true) == [];
    } else {
      FilterKeepsFirst(v4, lines[..|lines| - 1]);
    }
  }

  lemma PrefixAt(line: string, prefix: string, i: nat)
    requires StartsWith(line, prefix) && i < |prefix|
    ensures i < |line| && line[i] == prefix[i]
  {
  }

  lemma MediaStays(v4: Address, line: Line)
    requires IsMedia(line)
    ensures Stays(v4, line) && line != END && !StartsWith(line, MID)
  {
    PrefixAt(line, MEDIA, 0);
    assert MEDIA[0] == 'm' && MID[0] == 'a' && CANDIDATE_LINE[0] == 'a' && END[0] == 'a';
  }

  lemma MidStays(v4: Address, line: Line)
    requires StartsWith(line, MID)
    ensures Stays(v4, line) && line != END && !IsMedia(line)
  {
    PrefixAt(line, MID, 0);
    PrefixAt(line, MID, 2);
    assert MEDIA[0] == 'm' && MID[0] == 'a' && MID[2] == 'm' && CANDIDATE_LINE[2] == 'c' && END[2] == 'e';
    if IsMedia(line) {
      PrefixAt(line, MEDIA, 0);
    }
  }

  /** A line made of an IPv4 candidate. */
  ghost predicate IsExtra(v4: Address, line: Line) {
    exists text :: IsIpv4(v4, text) && line == "a=" + text
  }

  lemma ExtraLineIs(v4: Address, line: Line)
    requires IsExtra(v4, line)
    ensures Stays(v4, line) && line != END && !IsMedia(line) && !StartsWith(line, MID) && '\n' !in line
  {
    var text :| IsIpv4(v4, text) && line == "a=" + text;
    PrefixAt(text, CANDIDATE, 0);
    assert line[2..] == text && line[0] == 'a' && line[2] == text[0];
    assert MEDIA[0] == 'm' && MID[2] == 'm' && CANDIDATE[0] == 'c' && END[2] == 'e';
  }

  lemma {:induction false} ExtraIs(v4: Address, candidates: seq<Candidate>, mids: map<string, nat>, count: nat, section: nat)
    ensures forall x :: x in Extra(v4, candidates, mids, count, section) <==>
      exists c :: c in candidates && Route(v4, c, mids, count) == Some(section) && x == LineOf(c)
    ensures forall x :: x in Extra(v4, candidates, mids, count, section) ==> IsExtra(v4, x)
  {
    if candidates == [] {
    } else {
      ExtraIs(v4, candidates[..|candidates| - 1], mids, count, section);
      assert candidates == candidates[..|candidates| - 1] + [candidates[|candidates| - 1]];
    }
  }

  ghost predicate AllExtra(v4: Address, extra: seq<Line>) { forall x :: x in extra ==> IsExtra(v4, x) }

  /** Everything of the section that stays, the candidates, and the end line once, at the end. */
  lemma ClosedIs(v4: Address, section: seq<Line>, extra: seq<Line>)
    requires AllExtra(v4, extra)
    ensures var out := Closed(v4, section, extra);
      && Distinct(out) && out[|out| - 1] == END
      && (forall x :: x in out <==> x == END || (x in section && Stays(v4, x)) || x in extra)
      && (forall x :: x in out ==> Stays(v4, x))
  {
    var lines := Filter(v4, section, true) + extra;
    FilterIs(v4, section, true);
    DedupIs(lines);
    forall x | x in extra ensures Stays(v4, x) && x != END {
      ExtraLineIs(v4, x);
    }
    assert END !in Dedup(lines);
    EndStays(v4);
  }

  lemma EndStays(v4: Address)
    ensures Stays(v4, END) && !IsMedia(END) && !StartsWith(END, MID) && '\n' !in END && END != ""
  {
    assert MEDIA[0] == 'm' && MID[2] == 'm' && CANDIDATE_LINE[2] == 'c' && END[0] == 'a' && END[2] == 'e';
  }

  lemma ClosedIsSection(v4: Address, section: seq<Line>, extra: seq<Line>)
    requires IsSection(section) && AllExtra(v4, extra)
    ensures IsSection(Closed(v4, section, extra)) && Closed(v4, section, extra)[0] == section[0]
  {
    var out := Closed(v4, section, extra);
    ClosedIs(v4, section, extra);
    FilterKeepsFirst(v4, section);
    DedupKeepsFirst(Filter(v4, section, true) + extra);
    forall x | x in out[1..] ensures !IsMedia(x) {
      var i :| 0 <= i < |out[1..]| && out[1..][i] == x;
      assert out[i + 1] == x && x != out[0];
      if x == END {
        EndStays(v4);
      } else if x in extra {
        ExtraLineIs(v4, x);
      } else {
        assert x in section && section == [section[0]] + section[1..];
      }
    }
  }

  lemma RewrittenIs(v4: Address, p: Sdp, candidates: seq<Candidate>)
    requires WellParsed(p)
    ensures WellParsed(Rewritten(v4, p, candidates)) && |Rewritten(v4, p, candidates).sections| == |p.sections|
  {
    var r, mids, count := Rewritten(v4, p, candidates), Mids(p.sections), |p.sections|;
    FilterIs(v4, p.head, false);
    forall i | 0 <= i < count ensures IsSection(r.sections[i]) {
      ExtraIs(v4, candidates, mids, count, i);
      assert p.sections[i] in p.sections;
      ClosedIsSection(v4, p.sections[i], Extra(v4, candidates, mids, count, i));
    }
  }

  // ---------- mids ----------

  lemma {:induction false} MidsInIs(mids: map<string, nat>, lines: seq<Line>, section: nat, k: string)
    ensures MID + k in lines ==> k in MidsIn(mids, lines, section) && MidsIn(mids, lines, section)[k] == section
    ensures MID + k !in lines ==> (k in MidsIn(mids, lines, section) <==> k in mids)
    ensures MID + k !in lines && k in mids ==> MidsIn(mids, lines, section)[k] == mids[k]
  {
    if lines == [] {
    } else {
      var init, l := lines[..|lines| - 1], lines[|lines| - 1];
      assert lines == init + [l];
      MidsInIs(mids, init, section, k);
      if StartsWith(l, MID) {
        assert l == MID + l[|MID|..];
        assert l[|MID|..] == k ==> l == MID + k;
        assert (MID + k)[|MID|..] == k;
      }
    }
  }

  ghost predicate SameMids(a: seq<Line>, b: seq<Line>) { forall k :: MID + k in a <==> MID + k in b }

  lemma {:induction false} MidsAreSame(a: seq<seq<Line>>, b: seq<seq<Line>>)
    requires |a| == |b| && forall i :: 0 <= i < |a| ==> SameMids(a[i], b[i])
    ensures Mids(a) == Mids(b)
  {
    if a == [] {
    } else {
      var n := |a| - 1;
      MidsAreSame(a[..n], b[..n]);
      var m := Mids(a[..n]);
      forall k ensures (k in MidsIn(m, a[n], n) <==> k in MidsIn(m, b[n], n))
        && (k in MidsIn(m, a[n], n) ==> MidsIn(m, a[n], n)[k] == MidsIn(m, b[n], n)[k])
      {
        MidsInIs(m, a[n], n, k);
        MidsInIs(m, b[n], n, k);
        assert SameMids(a[n], b[n]);
      }
    }
  }

  lemma ClosedKeepsMids(v4: Address, section: seq<Line>, extra: seq<Line>)
    requires AllExtra(v4, extra)
    ensures SameMids(section, Closed(v4, section, extra))
  {
    ClosedIs(v4, section, extra);
    forall k ensures MID + k in section <==> MID + k in Closed(v4, section, extra) {
      MidStays(v4, MID + k);
      if MID + k in extra {
        ExtraLineIs(v4, MID + k);
      }
    }
  }

  lemma RewrittenKeepsMids(v4: Address, p: Sdp, candidates: seq<Candidate>)
    ensures Mids(Rewritten(v4, p, candidates).sections) == Mids(p.sections)
  {
    var r, mids, count := Rewritten(v4, p, candidates), Mids(p.sections), |p.sections|;
    forall i | 0 <= i < count ensures SameMids(r.sections[i], p.sections[i]) {
      ExtraIs(v4, candidates, mids, count, i);
      ClosedKeepsMids(v4, p.sections[i], Extra(v4, candidates, mids, count, i));
    }
    MidsAreSame(r.sections, p.sections);
  }

  // ---------- rewriting twice ----------

  lemma ClosedTwice(v4: Address, section: seq<Line>, extra: seq<Line>, again: seq<Line>)
    requires AllExtra(v4, extra) && forall x :: x in again ==> x in extra
    ensures Closed(v4, Closed(v4, section, extra), again) == Closed(v4, section, extra)
  {
    var lines := Filter(v4, section, true) + extra;
    var d := Dedup(lines);
    DedupIs(lines);
    FilterIs(v4, section, true);
    forall x | x in d ensures Stays(v4, x) && x != END {
      if x in extra {
        ExtraLineIs(v4, x);
      }
    }
    FilterFixed(v4, d, true);
    assert (d + [END])[..|d|] == d;
    assert Filter(v4, d + [END], true) == d;
    DedupAbsorbs(d, again);
    DedupOfDistinct(d);
  }

  /** Rewriting again, with the same candidates or with none, changes nothing. */
  lemma RewrittenTwice(v4: Address, p: Sdp, candidates: seq<Candidate>, again: seq<Candidate>)
    requires again == candidates || again == []
    ensures Rewritten(v4, Rewritten(v4, p, candidates), again) == Rewritten(v4, p, candidates)
  {
    var r, mids, count := Rewritten(v4, p, candidates), Mids(p.sections), |p.sections|;
    RewrittenKeepsMids(v4, p, candidates);
    FilterIs(v4, p.head, false);
    FilterFixed(v4, r.head, false);
    var rr := Rewritten(v4, r, again);
    forall i | 0 <= i < count ensures rr.sections[i] == r.sections[i] {
      var extra := Extra(v4, candidates, mids, count, i);
      ExtraIs(v4, candidates, mids, count, i);
      ClosedTwice(v4, p.sections[i], extra, Extra(v4, again, mids, count, i));
    }
    assert rr.sections == r.sections;
  }

  /** Of a description with media sections the parse is the rewritten parse. */
  lemma EmbeddedParses(v4: Address, lines: seq<Line>, candidates: seq<Candidate>)
    requires Parse(lines).sections != []
    ensures Parse(EmbedLines(v4, lines, candidates)) == Rewritten(v4, Parse(lines), candidates)
    ensures Parse(EmbedLines(v4, lines, candidates)).sections != []
  {
    ParseIs(lines);
    RewrittenIs(v4, Parse(lines), candidates);
    ParseBack(Rewritten(v4, Parse(lines), candidates));
  }

  lemma EmbedLinesTwice(v4: Address, lines: seq<Line>, candidates: seq<Candidate>, again: seq<Candidate>)
    requires again == candidates || again == []
    ensures EmbedLines(v4, EmbedLines(v4, lines, candidates), again) == EmbedLines(v4, lines, candidates)
  {
    if Parse(lines).sections != [] {
      EmbeddedParses(v4, lines, candidates);
      RewrittenTwice(v4, Parse(lines), candidates, again);
    }
  }

  // ---------- where a candidate belongs ----------

  /** Section `s` is the last one that has this mid. */
  ghost predicate LastNamed(sections: seq<seq<Line>>, mid: string, s: nat) {
    s < |sections| && "a=mid:" + mid in sections[s] && forall j :: s < j < |sections| ==> "a=mid:" + mid !in sections[j]
  }

  ghost predicate SomeNamed(sections: seq<seq<Line>>, mid: string) {
    exists j :: 0 <= j < |sections| && "a=mid:" + mid in sections[j]
  }

  /** A candidate belongs to the last section with its mid, or, when it has none or no section
      has it, to the one with its index. */
  ghost predicate Belongs(c: Candidate, sections: seq<seq<Line>>, s: nat) {
    if c.mid.Some? && SomeNamed(sections, c.mid.value) then LastNamed(sections, c.mid.value, s)
    else s < |sections| && c.index == Some(s)
  }

  /** A candidate with an IPv4 address, on one line. */
  predicate OneIpv4Line(v4: Address, text: string) {
    "candidate:" <= text && v4(text) && forall i :: 0 <= i < |text| ==> text[i] != '\n' && text[i] != '\r'
  }

  /** Every line but those of other candidates. */
  predicate MayStay(v4: Address, x: Line) { !("a=candidate:" <= x) || OneIpv4Line(v4, x[2..]) }

  lemma StaysIs(v4: Address, x: Line)
    ensures Stays(v4, x) <==> MayStay(v4, x)
  {
  }

  lemma {:induction false} MidsName(sections: seq<seq<Line>>, k: string)
    ensures k in Mids(sections) <==> SomeNamed(sections, k)
    ensures k in Mids(sections) ==> LastNamed(sections, k, Mids(sections)[k])
  {
    if sections == [] {
    } else {
      var n := |sections| - 1;
      var init := sections[..n];
      MidsName(init, k);
      MidsInIs(Mids(init), sections[n], n, k);
      assert forall j :: 0 <= j < n ==> init[j] == sections[j];
    }
  }

  /** The route of a candidate is to where it belongs. */
  lemma RouteIs(v4: Address, c: Candidate, sections: seq<seq<Line>>, s: nat)
    ensures Route(v4, c, Mids(sections), |sections|) == Some(s) <==> OneIpv4Line(v4, c.text) && Belongs(c, sections, s)
  {
    if c.mid.Some? {
      MidsName(sections, c.mid.value);
    }
  }

  /** The line of an IPv4 candidate that belongs to this section. */
  ghost predicate Gains(v4: Address, sections: seq<seq<Line>>, candidates: seq<Candidate>, s: nat, x: Line) {
    exists c :: c in candidates && OneIpv4Line(v4, c.text) && Belongs(c, sections, s) && x == "a=" + c.text
  }

  lemma ExtraGains(v4: Address, sections: seq<seq<Line>>, candidates: seq<Candidate>, s: nat, x: Line)
    ensures x in Extra(v4, candidates, Mids(sections), |sections|, s) <==> Gains(v4, sections, candidates, s, x)
  {
    ExtraIs(v4, candidates, Mids(sections), |sections|, s);
    forall c ensures Route(v4, c, Mids(sections), |sections|) == Some(s) <==> OneIpv4Line(v4, c.text) && Belongs(c, sections, s) {
      RouteIs(v4, c, sections, s);
    }
  }

  /** What a section has become: it keeps its media line and everything in it that is no
      duplicate, no end line and no foreign candidate; each IPv4 candidate that belongs here is
      in it exactly once; it ends with its only end-of-candidates line; nothing else is there. */
  ghost predicate IsCompleted(v4: Address, p: Sdp, candidates: seq<Candidate>, s: nat, after: seq<Line>, x: Line)
    requires s < |p.sections|
  {
    var before, end := p.sections[s], "a=end-of-candidates";
    && before != [] && after != [] && after[0] == before[0] && "m=" <= after[0]
    && after[|after| - 1] == end && multiset(after)[end] == 1
    && multiset(after)[x] <= 1
    && (x in after <==> x == end || (x in before && MayStay(v4, x)) || Gains(v4, p.sections, candidates, s, x))
  }

  lemma SectionsOfLines(v4: Address, lines: seq<Line>, candidates: seq<Candidate>, s: nat, x: Line)
    requires s < |Parse(lines).sections|
    ensures |Parse(EmbedLines(v4, lines, candidates)).sections| == |Parse(lines).sections|
    ensures IsCompleted(v4, Parse(lines), candidates, s, Parse(EmbedLines(v4, lines, candidates)).sections[s], x)
  {
    var p := Parse(lines);
    var extra := Extra(v4, candidates, Mids(p.sections), |p.sections|, s);
    ParseIs(lines);
    EmbeddedParses(v4, lines, candidates);
    ExtraIs(v4, candidates, Mids(p.sections), |p.sections|, s);
    assert p.sections[s] in p.sections;
    ClosedIs(v4, p.sections[s], extra);
    ClosedIsSection(v4, p.sections[s], extra);
    DistinctCounts(Closed(v4, p.sections[s], extra), x);
    DistinctCounts(Closed(v4, p.sections[s], extra), END);
    ExtraGains(v4, p.sections, candidates, s, x);
    StaysIs(v4, x);
  }

  // ---------- the order of the lines ----------

  /** `after` is what stands at the places `at` of `before`, in order. */
  ghost predicate Picks(at: seq<nat>, before: seq<Line>, after: seq<Line>) {
    && |at| == |after| && (forall i, j :: 0 <= i < j < |at| ==> at[i] < at[j])
    && forall i :: 0 <= i < |at| ==> at[i] < |before| && after[i] == before[at[i]]
  }

  lemma PickSnoc(at: seq<nat>, before: seq<Line>, after: seq<Line>, l: Line)
    requires Picks(at, before, after)
    ensures Picks(at, before + [l], after) && Picks(at + [|before|], before + [l], after + [l])
  {
  }

  lemma {:induction false} FilterPicks(v4: Address, lines: seq<Line>, dropEnd: bool) returns (at: seq<nat>)
    ensures Picks(at, lines, Filter(v4, lines, dropEnd))
    ensures forall j: nat :: j < |lines| && Stays(v4, lines[j]) && !(dropEnd && lines[j] == END) ==> j in at
  {
    if lines == [] {
      at := [];
    } else {
      var init, l := lines[..|lines| - 1], lines[|lines| - 1];
      assert lines == init + [l];
      at := FilterPicks(v4, init, dropEnd);
      PickSnoc(at, init, Filter(v4, init, dropEnd), l);
      if Stays(v4, l) && !(dropEnd && l == END) {
        at := at + [|init|];
      }
    }
  }

  /** Of each line the first stays. */
  lemma {:induction false} DedupPicks(s: seq<Line>) returns (at: seq<nat>)
    ensures Picks(at, s, Dedup(s))
    ensures forall i, j :: 0 <= i < |at| && 0 <= j < at[i] ==> s[j] != s[at[i]]
  {
    if s == [] {
      at := [];
    } else {
      var init, x := s[..|s| - 1], s[|s| - 1];
      assert s == init + [x];
      at := DedupPicks(init);
      DedupIs(init);
      PickSnoc(at, init, Dedup(init), x);
      if x !in Dedup(init) {
        at := at + [|init|];
      }
    }
  }

  /** The candidates of a section, in order. */
  lemma {:induction false} ExtraPicks(v4: Address, candidates: seq<Candidate>, mids: map<string, nat>, count: nat, section: nat)
    returns (from: seq<nat>)
    ensures Picks(from, AllLines(candidates), Extra(v4, candidates, mids, count, section))
    ensures forall i :: 0 <= i < |from| ==> from[i] < |candidates| && Route(v4, candidates[from[i]], mids, count) == Some(section)
    ensures forall j: nat :: j < |candidates| && Route(v4, candidates[j], mids, count) == Some(section) ==> j in from
  {
    if candidates == [] {
      from := [];
    } else {
      var init, c := candidates[..|candidates| - 1], candidates[|candidates| - 1];
      assert candidates == init + [c];
      from := ExtraPicks(v4, init, mids, count, section);
      assert AllLines(candidates) == AllLines(init) + [LineOf(c)];
      PickSnoc(from, AllLines(init), Extra(v4, init, mids, count, section), LineOf(c));
      if Route(v4, c, mids, count) == Some(section) {
        from := from + [|init|];
      }
    }
  }

  function AllLines(candidates: seq<Candidate>): seq<Line> {
    seq(|candidates|, i requires 0 <= i < |candidates| => "a=" + candidates[i].text)
  }

  function Through(f: seq<nat>, g: seq<nat>): seq<nat>
    requires forall i :: 0 <= i < |g| ==> g[i] < |f|
  {
    seq(|g|, i requires 0 <= i < |g| => f[g[i]])
  }

  lemma PicksThrough(f: seq<nat>, g: seq<nat>, before: seq<Line>, between: seq<Line>, after: seq<Line>)
    requires Picks(f, before, between) && Picks(g, between, after)
    ensures Picks(Through(f, g), before, after)
  {
  }

  function Less(g: seq<nat>, n: nat): seq<nat>
    requires forall i :: 0 <= i < |g| ==> n <= g[i]
  {
    seq(|g|, i requires 0 <= i < |g| => g[i] - n)
  }

  /** How many of the places are in the first part. */
  lemma {:induction false} PlacesBelow(g: seq<nat>, bound: nat) returns (n: nat)
    requires forall i, j :: 0 <= i < j < |g| ==> g[i] < g[j]
    ensures n <= |g| && (forall i :: 0 <= i < n ==> g[i] < bound) && (forall i :: n <= i < |g| ==> bound <= g[i])
  {
    if g == [] || g[|g| - 1] < bound {
      n := |g|;
    } else {
      n := PlacesBelow(g[..|g| - 1], bound);
    }
  }

  lemma PicksInParts(g: seq<nat>, a: seq<Line>, b: seq<Line>, after: seq<Line>) returns (n: nat)
    requires Picks(g, a + b, after)
    ensures n <= |g| == |after| && (forall i :: n <= i < |g| ==> |a| <= g[i])
    ensures Picks(g[..n], a, after[..n]) && Picks(Less(g[n..], |a|), b, after[n..])
  {
    n := PlacesBelow(g, |a|);
  }

  lemma FirstThrough(f: seq<nat>, g: seq<nat>, before: seq<Line>, between: seq<Line>, after: seq<Line>, i: nat, j: nat)
    requires Picks(f, before, between) && Picks(g, between, after) && i < |g| && j < f[g[i]]
    requires forall m :: 0 <= m < g[i] ==> between[m] != between[g[i]]
    requires j in f
    ensures before[j] != before[f[g[i]]]
  {
    var m :| 0 <= m < |f| && f[m] == j;
    assert m < g[i];
  }

  /** A rewritten section has the lines that stay, in their order, then the candidates, in
      theirs, then the end line. Of each line the first stands. */
  ghost predicate InTheirOrder(section: seq<Line>, candidates: seq<Candidate>, after: seq<Line>, at: seq<nat>, from: seq<nat>) {
    && |after| == |at| + |from| + 1
    && Picks(at, section, after[..|at|]) && Picks(from, AllLines(candidates), after[|at|..|after| - 1])
    && forall i, j :: 0 <= i < |at| && 0 <= j < at[i] < |section| ==> section[j] != section[at[i]]
  }

  lemma ClosedInOrder(v4: Address, section: seq<Line>, candidates: seq<Candidate>, mids: map<string, nat>, count: nat, s: nat)
    returns (at: seq<nat>, from: seq<nat>)
    ensures InTheirOrder(section, candidates, Closed(v4, section, Extra(v4, candidates, mids, count, s)), at, from)
  {
    var kept, extra := Filter(v4, section, true), Extra(v4, candidates, mids, count, s);
    var d := Dedup(kept + extra);
    var f := FilterPicks(v4, section, true);
    var e := ExtraPicks(v4, candidates, mids, count, s);
    var g := DedupPicks(kept + extra);
    var n := PicksInParts(g, kept, extra, d);
    PicksThrough(f, g[..n], section, kept, d[..n]);
    PicksThrough(e, Less(g[n..], |kept|), AllLines(candidates), extra, d[n..]);
    at, from := Through(f, g[..n]), Through(e, Less(g[n..], |kept|));
    forall i, j | 0 <= i < |at| && 0 <= j < at[i] < |section| ensures section[j] != section[at[i]] {
      if section[j] == section[at[i]] {
        FilterIs(v4, section, true);
        assert kept[g[i]] in kept && section[j] == kept[g[i]];
        assert forall m :: 0 <= m < g[i] ==> kept[m] == (kept + extra)[m];
        FirstThrough(f, g[..n], section, kept, d[..n], i, j);
      }
    }
    var after := d + [END];
    assert after[..n] == d[..n] && after[n..|after| - 1] == d[n..];
  }

  lemma {:induction false} ConcatIs(sections: seq<seq<Line>>, x: Line)
    ensures x in Concat(sections) <==> exists i :: 0 <= i < |sections| && x in sections[i]
  {
    if sections == [] {
    } else {
      var n := |sections| - 1;
      ConcatIs(sections[..n], x);
      assert Concat(sections) == Concat(sections[..n]) + sections[n];
    }
  }

  lemma NoForeignLinesIff(v4: Address, lines: seq<Line>, candidates: seq<Candidate>)
    ensures (forall x :: x in EmbedLines(v4, lines, candidates) ==> Stays(v4, x)) <==>
      Parse(lines).sections != [] || forall x :: x in lines ==> Stays(v4, x)
  {
    var p := Parse(lines);
    if p.sections != [] {
      var r, mids, count := Rewritten(v4, p, candidates), Mids(p.sections), |p.sections|;
      FilterIs(v4, p.head, false);
      forall x | x in r.head + Concat(r.sections) ensures Stays(v4, x) {
        if x !in r.head {
          ConcatIs(r.sections, x);
          var i :| 0 <= i < |r.sections| && x in r.sections[i];
          ExtraIs(v4, candidates, mids, count, i);
          ClosedIs(v4, p.sections[i], Extra(v4, candidates, mids, count, i));
        }
      }
    }
  }

  // ---------- text ----------

  function CrlfToLf(s: string): string {
    if s == "" then ""
    else if |s| >= 2 && s[0] == '\r' && s[1] == '\n' then "\n" + CrlfToLf(s[2..])
    else [s[0]] + CrlfToLf(s[1..])
  }

  function StripLf(s: string): string {
    if s != "" && s[|s| - 1] == '\n' then StripLf(s[..|s| - 1]) else s
  }

  function SplitLf(s: string): (lines: seq<Line>)
    ensures lines != []
  {
    if s == "" then [""]
    else if s[0] == '\n' then [""] + SplitLf(s[1..])
    else
      var rest := SplitLf(s[1..]);
      [[s[0]] + rest[0]] + rest[1..]
  }

  function Lines(sdp: string): seq<Line> { SplitLf(StripLf(CrlfToLf(sdp))) }

  function Join(lines: seq<Line>): string {
    if lines == [] then "" else lines[0] + "\r\n" + Join(lines[1..])
  }

  function Embedded(v4: Address, sdp: string, candidates: seq<Candidate>): string {
    var lines := Lines(sdp);
    if Parse(lines).sections == [] then sdp else Join(EmbedLines(v4, lines, candidates))
  }

  ghost predicate Unbroken(lines: seq<Line>) { forall l :: l in lines ==> '\n' !in l }

  function Glue(lines: seq<Line>): string
    requires lines != []
  {
    if |lines| == 1 then lines[0] else lines[0] + "\n" + Glue(lines[1..])
  }

  lemma {:induction false} CrlfLine(l: Line, rest: string)
    requires '\n' !in l
    ensures CrlfToLf(l + "\r\n" + rest) == l + "\n" + CrlfToLf(rest)
  {
    var s := l + "\r\n" + rest;
    if l == "" {
      assert s[2..] == rest;
    } else {
      assert s[1..] == l[1..] + "\r\n" + rest;
      assert s[1] == if |l| > 1 then l[1] else '\r';
      CrlfLine(l[1..], rest);
      assert l == [l[0]] + l[1..];
    }
  }

  lemma {:induction false} JoinedLf(lines: seq<Line>)
    requires Unbroken(lines) && lines != []
    ensures CrlfToLf(Join(lines)) == Glue(lines) + "\n"
  {
    CrlfLine(lines[0], Join(lines[1..]));
    if |lines| > 1 {
      JoinedLf(lines[1..]);
    } else {
      assert Join(lines[1..]) == "";
    }
  }

  lemma {:induction false} GlueEnds(lines: seq<Line>)
    requires Unbroken(lines) && lines != [] && lines[|lines| - 1] != ""
    ensures Glue(lines) != "" && Glue(lines)[|Glue(lines)| - 1] != '\n'
  {
    if |lines| == 1 {
      assert lines[0] in lines;
    } else {
      GlueEnds(lines[1..]);
    }
  }

  lemma {:induction false} SplitLine(l: Line, rest: string)
    requires '\n' !in l
    ensures SplitLf(l + "\n" + rest) == [l] + SplitLf(rest) && SplitLf(l) == [l]
  {
    var s := l + "\n" + rest;
    if l == "" {
      assert s[1..] == rest;
    } else {
      assert s[1..] == l[1..] + "\n" + rest;
      SplitLine(l[1..], rest);
      assert l == [l[0]] + l[1..];
    }
  }

  lemma {:induction false} SplitGlued(lines: seq<Line>)
    requires Unbroken(lines) && lines != []
    ensures SplitLf(Glue(lines)) == lines
  {
    if |lines| == 1 {
      SplitLine(lines[0], "");
    } else {
      SplitGlued(lines[1..]);
      SplitLine(lines[0], Glue(lines[1..]));
    }
  }

  /** Reading back the text that is written gives the lines again. */
  lemma LinesOfJoin(lines: seq<Line>)
    requires Unbroken(lines) && lines != [] && lines[|lines| - 1] != ""
    ensures Lines(Join(lines)) == lines
  {
    var text, glued := WrittenOut(lines);
    ReadBack(text, glued);
  }

  lemma WrittenOut(lines: seq<Line>) returns (text: string, glued: string)
    requires Unbroken(lines) && lines != [] && lines[|lines| - 1] != ""
    ensures text == Join(lines) && CrlfToLf(text) == glued + "\n"
    ensures glued != "" && glued[|glued| - 1] != '\n' && SplitLf(glued) == lines
  {
    text := Join(lines);
    glued := Glue(lines);
    JoinedLf(lines);
    GlueEnds(lines);
    SplitGlued(lines);
  }

  lemma ReadBack(text: string, glued: string)
    requires CrlfToLf(text) == glued + "\n" && glued != "" && glued[|glued| - 1] != '\n'
    ensures Lines(text) == SplitLf(glued)
  {
    StripOne(glued);
  }

  lemma StripOne(s: string)
    requires s != "" && s[|s| - 1] != '\n'
    ensures StripLf(s + "\n") == s
  {
    assert (s + "\n")[..|s + "\n"| - 1] == s;
  }

  lemma {:induction false} NoCrNoChange(s: string)
    requires '\r' !in s
    ensures CrlfToLf(s) == s
  {
    if s == "" {
    } else {
      assert s == [s[0]] + s[1..] && s[0] in s;
      NoCrNoChange(s[1..]);
    }
  }

  function Newlines(n: nat): string { if n == 0 then "" else Newlines(n - 1) + "\n" }

  lemma {:induction false} StripAll(s: string, n: nat)
    requires s != "" && s[|s| - 1] != '\n'
    ensures StripLf(s + Newlines(n)) == s && (forall c :: c in Newlines(n) ==> c == '\n')
  {
    if n == 0 {
      assert s + "" == s;
    } else {
      StripAll(s, n - 1);
      var text := s + Newlines(n);
      assert text[..|text| - 1] == s + Newlines(n - 1);
    }
  }

  lemma {:induction false} GlueHasNoCr(lines: seq<Line>)
    requires lines != [] && forall l :: l in lines ==> '\r' !in l
    ensures '\r' !in Glue(lines)
  {
    if |lines| == 1 {
      assert lines[0] in lines;
    } else {
      GlueHasNoCr(lines[1..]);
      assert lines[0] in lines;
    }
  }

  /** Text with bare line feeds, and any number of them at its end, reads as its lines too. */
  lemma LinesOfLf(lines: seq<Line>, n: nat)
    requires Unbroken(lines) && lines != [] && lines[|lines| - 1] != "" && forall l :: l in lines ==> '\r' !in l
    ensures Lines(Glue(lines) + Newlines(n)) == lines
  {
    GlueEnds(lines);
    GlueHasNoCr(lines);
    StripAll(Glue(lines), n);
    NoCrNoChange(Glue(lines) + Newlines(n));
    SplitGlued(lines);
  }

  lemma {:induction false} SplitIsUnbroken(s: string)
    ensures Unbroken(SplitLf(s))
  {
    if s == "" {
    } else {
      SplitIsUnbroken(s[1..]);
      assert SplitLf(s[1..])[0] in SplitLf(s[1..]);
    }
  }

  lemma SectionUnbroken(v4: Address, lines: seq<Line>, candidates: seq<Candidate>, i: nat, x: Line)
    requires Unbroken(lines) && i < |Parse(lines).sections|
    requires x in Rewritten(v4, Parse(lines), candidates).sections[i]
    ensures '\n' !in x
  {
    var p := Parse(lines);
    var extra := Extra(v4, candidates, Mids(p.sections), |p.sections|, i);
    ExtraIs(v4, candidates, Mids(p.sections), |p.sections|, i);
    ClosedIs(v4, p.sections[i], extra);
    EndStays(v4);
    if x in extra {
      ExtraLineIs(v4, x);
    } else if x != END {
      ParseIs(lines);
      ConcatIs(p.sections, x);
      assert x in p.head + Concat(p.sections);
    }
  }

  /** The rewritten lines can be told apart again. */
  lemma EmbeddedUnbroken(v4: Address, lines: seq<Line>, candidates: seq<Candidate>)
    requires Unbroken(lines) && Parse(lines).sections != []
    ensures Unbroken(EmbedLines(v4, lines, candidates))
  {
    var p, out := Parse(lines), EmbedLines(v4, lines, candidates);
    var r := Rewritten(v4, p, candidates);
    forall x | x in out ensures '\n' !in x {
      if x in r.head {
        HeadUnbroken(v4, lines, x);
      } else {
        ConcatIs(r.sections, x);
        var i :| 0 <= i < |r.sections| && x in r.sections[i];
        SectionUnbroken(v4, lines, candidates, i, x);
      }
    }
  }

  lemma HeadUnbroken(v4: Address, lines: seq<Line>, x: Line)
    requires Unbroken(lines) && x in Filter(v4, Parse(lines).head, false)
    ensures '\n' !in x
  {
    var p := Parse(lines);
    ParseIs(lines);
    FilterIs(v4, p.head, false);
    assert x in p.head + Concat(p.sections);
  }

  lemma EmbeddedEnds(v4: Address, lines: seq<Line>, candidates: seq<Candidate>)
    requires Parse(lines).sections != []
    ensures var out := EmbedLines(v4, lines, candidates); out != [] && out[|out| - 1] == END
  {
    var p := Parse(lines);
    var mids, n := Mids(p.sections), |p.sections| - 1;
    var sections := Rewritten(v4, p, candidates).sections;
    ExtraIs(v4, candidates, mids, n + 1, n);
    ClosedIs(v4, p.sections[n], Extra(v4, candidates, mids, n + 1, n));
    assert Concat(sections) == Concat(sections[..n]) + sections[n];
  }

  /** What is written reads back, line by line, as what was computed, for any text. */
  lemma EmbeddedReadsBack(v4: Address, sdp: string, candidates: seq<Candidate>)
    ensures Lines(Embedded(v4, sdp, candidates)) == EmbedLines(v4, Lines(sdp), candidates)
  {
    var lines := Lines(sdp);
    if Parse(lines).sections != [] {
      SplitIsUnbroken(StripLf(CrlfToLf(sdp)));
      EmbeddedUnbroken(v4, lines, candidates);
      EmbeddedEnds(v4, lines, candidates);
      LinesOfJoin(EmbedLines(v4, lines, candidates));
    }
  }

  /** In the text that is written the media sections keep their number and order, and each is
      completed as it should be. */
  lemma SectionsAreRight(v4: Address, sdp: string, candidates: seq<Candidate>, s: nat, x: Line)
    requires s < |Parse(Lines(sdp)).sections|
    ensures var before, after := Parse(Lines(sdp)), Parse(Lines(Embedded(v4, sdp, candidates)));
      && |after.sections| == |before.sections|
      && IsCompleted(v4, before, candidates, s, after.sections[s], x)
  {
    EmbeddedReadsBack(v4, sdp, candidates);
    SectionsOfLines(v4, Lines(sdp), candidates, s, x);
  }

  /** In each of its sections the lines stand in their order. */
  lemma LinesKeepTheirOrder(v4: Address, sdp: string, candidates: seq<Candidate>, s: nat) returns (at: seq<nat>, from: seq<nat>)
    requires s < |Parse(Lines(sdp)).sections|
    ensures s < |Parse(Lines(Embedded(v4, sdp, candidates))).sections|
    ensures InTheirOrder(Parse(Lines(sdp)).sections[s], candidates,
                         Parse(Lines(Embedded(v4, sdp, candidates))).sections[s], at, from)
  {
    var p := Parse(Lines(sdp));
    EmbeddedReadsBack(v4, sdp, candidates);
    EmbeddedParses(v4, Lines(sdp), candidates);
    at, from := ClosedInOrder(v4, p.sections[s], candidates, Mids(p.sections), |p.sections|, s);
  }

  /** What comes before the first section stays, in its order, but for foreign candidates. */
  lemma HeadStays(v4: Address, sdp: string, candidates: seq<Candidate>) returns (at: seq<nat>)
    requires Parse(Lines(sdp)).sections != []
    ensures var before, after := Parse(Lines(sdp)).head, Parse(Lines(Embedded(v4, sdp, candidates))).head;
      Picks(at, before, after) && forall j: nat :: j < |before| ==> (j in at <==> MayStay(v4, before[j]))
  {
    var p := Parse(Lines(sdp));
    EmbeddedReadsBack(v4, sdp, candidates);
    EmbeddedParses(v4, Lines(sdp), candidates);
    at := FilterPicks(v4, p.head, false);
    FilterIs(v4, p.head, false);
    forall j: nat | j < |p.head| ensures j in at <==> MayStay(v4, p.head[j]) {
      StaysIs(v4, p.head[j]);
      if j in at {
        var i :| 0 <= i < |at| && at[i] == j;
        assert Filter(v4, p.head, false)[i] in Filter(v4, p.head, false);
      }
    }
  }

  /** No line of a foreign candidate is left anywhere in the text, exactly when it has a media
      section or had none to begin with: without media sections nothing is rewritten. */
  lemma NoForeignCandidatesIff(v4: Address, sdp: string, candidates: seq<Candidate>)
    ensures (forall x :: x in Lines(Embedded(v4, sdp, candidates)) ==> MayStay(v4, x)) <==>
      Parse(Lines(sdp)).sections != [] || forall x :: x in Lines(sdp) ==> MayStay(v4, x)
  {
    EmbeddedReadsBack(v4, sdp, candidates);
    NoForeignLinesIff(v4, Lines(sdp), candidates);
    forall x ensures Stays(v4, x) <==> MayStay(v4, x) {
      StaysIs(v4, x);
    }
  }

  /** Embedding again, the same candidates or none, gives the same text, for any text. */
  lemma EmbeddingTwice(v4: Address, sdp: string, candidates: seq<Candidate>, again: seq<Candidate>)
    requires again == candidates || again == []
    ensures Embedded(v4, Embedded(v4, sdp, candidates), again) == Embedded(v4, sdp, candidates)
  {
    var lines := Lines(sdp);
    if Parse(lines).sections != [] {
      EmbeddedReadsBack(v4, sdp, candidates);
      EmbeddedParses(v4, lines, candidates);
      EmbedLinesTwice(v4, lines, candidates, again);
    }
  }

  // ---------- the loops ----------

  function Lookup(extra: map<nat, seq<Line>>, s: nat): seq<Line> { if s in extra then extra[s] else [] }

  function EndOf(starts: seq<nat>, length: nat, i: nat): nat {
    if i + 1 < |starts| then starts[i + 1] else length
  }

  /** This section is the slice from its media line to the next. */
  ghost predicate IsSlice(lines: seq<Line>, starts: seq<nat>, i: nat, section: seq<Line>) {
    i < |starts| && starts[i] <= EndOf(starts, |lines|, i) <= |lines| && section == lines[starts[i]..EndOf(starts, |lines|, i)]
  }

  /** The slices between media lines are the sections, and what comes before is the head. */
  ghost predicate Sliced(lines: seq<Line>, starts: seq<nat>, p: Sdp) {
    && |p.sections| == |starts|
    && (forall i: nat :: i < |p.sections| ==> IsSlice(lines, starts, i, p.sections[i]))
    && (if starts == [] then p.head == lines else starts[0] <= |lines| && p.head == lines[..starts[0]])
  }

  lemma SliceStays(lines: seq<Line>, l: Line, from: nat, to: nat)
    requires from <= to <= |lines|
    ensures (lines + [l])[from..to] == lines[from..to]
  {
  }

  lemma SliceGrows(lines: seq<Line>, l: Line, from: nat)
    requires from <= |lines|
    ensures (lines + [l])[from..|lines| + 1] == lines[from..|lines|] + [l]
  {
  }

  lemma SliceMedia(lines: seq<Line>, starts: seq<nat>, p: Sdp, l: Line)
    requires Sliced(lines, starts, p) && IsMedia(l)
    ensures Sliced(lines + [l], starts + [|lines|], Taken(p, l))
  {
    forall i: nat | i < |p.sections| ensures IsSlice(lines + [l], starts + [|lines|], i, Taken(p, l).sections[i]) {
      assert IsSlice(lines, starts, i, p.sections[i]);
      assert EndOf(starts + [|lines|], |lines| + 1, i) == EndOf(starts, |lines|, i);
      SliceStays(lines, l, starts[i], EndOf(starts, |lines|, i));
    }
    assert IsSlice(lines + [l], starts + [|lines|], |starts|, [l]);
  }

  lemma SliceOther(lines: seq<Line>, starts: seq<nat>, p: Sdp, l: Line)
    requires Sliced(lines, starts, p) && !IsMedia(l)
    ensures Sliced(lines + [l], starts, Taken(p, l))
  {
    var t := Taken(p, l);
    forall i: nat | i < |p.sections| ensures IsSlice(lines + [l], starts, i, t.sections[i]) {
      assert IsSlice(lines, starts, i, p.sections[i]);
      if i < |p.sections| - 1 {
        assert t.sections[i] == p.sections[i];
        SliceStays(lines, l, starts[i], starts[i + 1]);
      } else {
        assert t.sections[i] == p.sections[i] + [l];
        SliceGrows(lines, l, starts[i]);
      }
    }
  }

  lemma {:induction false} SlicesAre(lines: seq<Line>)
    ensures Sliced(lines, Starts(lines), Parse(lines))
  {
    if lines == [] {
    } else {
      var init, l := lines[..|lines| - 1], lines[|lines| - 1];
      SlicesAre(init);
      assert lines == init + [l];
      if IsMedia(l) {
        SliceMedia(init, Starts(init), Parse(init), l);
      } else {
        SliceOther(init, Starts(init), Parse(init), l);
        assert Starts(init) + [] == Starts(init);
      }
    }
  }

  lemma CountIs(lines: seq<Line>)
    ensures |Starts(lines)| == |Parse(lines).sections|
  {
    SlicesAre(lines);
  }

  method Section(lines: seq<Line>, starts: seq<nat>, s: nat) returns (section: seq<Line>)
    requires starts == Starts(lines) && s < |starts|
    ensures s < |Parse(lines).sections| && section == Parse(lines).sections[s]
  {
    SlicesAre(lines);
    assert IsSlice(lines, starts, s, Parse(lines).sections[s]);
    var end := if s + 1 < |starts| then starts[s + 1] else |lines|;
    return lines[starts[s]..end];
  }

  function AllClosed(v4: Address, sections: seq<seq<Line>>, extra: map<nat, seq<Line>>): (r: seq<seq<Line>>)
    ensures |r| == |sections|
  {
    if sections == [] then []
    else
      var s := |sections| - 1;
      AllClosed(v4, sections[..s], extra) + [Closed(v4, sections[s], Lookup(extra, s))]
  }

  lemma OneMoreClosed(v4: Address, sections: seq<seq<Line>>, extra: map<nat, seq<Line>>, s: nat)
    requires s < |sections|
    ensures Concat(AllClosed(v4, sections[..s + 1], extra)) ==
      Concat(AllClosed(v4, sections[..s], extra)) + Closed(v4, sections[s], Lookup(extra, s))
  {
    assert sections[..s + 1][..s] == sections[..s];
    ConcatSnoc(AllClosed(v4, sections[..s], extra), Closed(v4, sections[s], Lookup(extra, s)));
  }

  lemma {:induction false} AllClosedAre(v4: Address, sections: seq<seq<Line>>, extra: map<nat, seq<Line>>, i: nat)
    requires i < |sections|
    ensures AllClosed(v4, sections, extra)[i] == Closed(v4, sections[i], Lookup(extra, i))
  {
    var s := |sections| - 1;
    if i >= s {
    } else {
      AllClosedAre(v4, sections[..s], extra, i);
      assert sections[..s][i] == sections[i];
    }
  }

  lemma RewrittenBy(v4: Address, p: Sdp, candidates: seq<Candidate>, extra: map<nat, seq<Line>>)
    requires p.sections != []
    requires RoutedSoFar(v4, candidates, Mids(p.sections), |p.sections|, extra)
    ensures AllClosed(v4, p.sections, extra) == Rewritten(v4, p, candidates).sections
  {
    forall i: nat | i < |p.sections| ensures AllClosed(v4, p.sections, extra)[i] == Rewritten(v4, p, candidates).sections[i] {
      AllClosedAre(v4, p.sections, extra, i);
    }
  }

  method MediaStarts(lines: seq<Line>) returns (starts: seq<nat>)
    ensures starts == Starts(lines)
  {
    starts := [];
    var i := 0;
    while i < |lines|
      invariant 0 <= i <= |lines| && starts == Starts(lines[..i])
    {
      assert lines[..i + 1][..i] == lines[..i];
      if IsMedia(lines[i]) {
        starts := starts + [i];
      }
      i := i + 1;
    }
    assert lines[..i] == lines;
  }

  method MidsOf(before: map<string, nat>, lines: seq<Line>, section: nat) returns (mids: map<string, nat>)
    ensures mids == MidsIn(before, lines, section)
  {
    mids := before;
    var i := 0;
    while i < |lines|
      invariant 0 <= i <= |lines| && mids == MidsIn(before, lines[..i], section)
    {
      assert lines[..i + 1][..i] == lines[..i];
      if StartsWith(lines[i], MID) {
        mids := mids[lines[i][|MID|..] := section];
      }
      i := i + 1;
    }
    assert lines[..i] == lines;
  }

  method FindMids(lines: seq<Line>, starts: seq<nat>) returns (mids: map<string, nat>)
    requires starts == Starts(lines)
    ensures mids == Mids(Parse(lines).sections)
  {
    ghost var sections := Parse(lines).sections;
    CountIs(lines);
    mids := map[];
    var s := 0;
    while s < |starts|
      invariant 0 <= s <= |starts| == |sections| && mids == Mids(sections[..s])
    {
      var section := Section(lines, starts, s);
      assert sections[..s + 1][..s] == sections[..s];
      mids := MidsOf(mids, section, s);
      s := s + 1;
    }
    assert sections[..s] == sections;
  }

  /** The dictionary holds the lines of these candidates, section by section. */
  ghost predicate RoutedSoFar(v4: Address, candidates: seq<Candidate>, mids: map<string, nat>, count: nat, extra: map<nat, seq<Line>>) {
    forall s: nat :: Extra(v4, candidates, mids, count, s) == Lookup(extra, s)
  }

  function Added(extra: map<nat, seq<Line>>, route: Option<nat>, line: Line): map<nat, seq<Line>> {
    match route
    case None => extra
    case Some(s) => extra[s := Lookup(extra, s) + [line]]
  }

  lemma RouteStep(v4: Address, candidates: seq<Candidate>, c: Candidate, mids: map<string, nat>, count: nat, extra: map<nat, seq<Line>>)
    requires RoutedSoFar(v4, candidates, mids, count, extra)
    ensures RoutedSoFar(v4, candidates + [c], mids, count, Added(extra, Route(v4, c, mids, count), LineOf(c)))
  {
    var after := Added(extra, Route(v4, c, mids, count), LineOf(c));
    forall s: nat ensures Extra(v4, candidates + [c], mids, count, s) == Lookup(after, s) {
      assert (candidates + [c])[..|candidates|] == candidates;
      assert Extra(v4, candidates, mids, count, s) == Lookup(extra, s);
    }
  }

  method RouteAll(v4: Address, candidates: seq<Candidate>, mids: map<string, nat>, count: nat)
    returns (extra: map<nat, seq<Line>>)
    ensures RoutedSoFar(v4, candidates, mids, count, extra)
  {
    extra := map[];
    var i := 0;
    while i < |candidates|
      invariant 0 <= i <= |candidates|
      invariant RoutedSoFar(v4, candidates[..i], mids, count, extra)
    {
      var route := Route(v4, candidates[i], mids, count);
      RouteStep(v4, candidates[..i], candidates[i], mids, count, extra);
      assert candidates[..i + 1] == candidates[..i] + [candidates[i]];
      extra := Added(extra, route, LineOf(candidates[i]));
      i := i + 1;
    }
    assert candidates[..i] == candidates;
  }

  method Pick(v4: Address, lines: seq<Line>, dropEnd: bool) returns (picked: seq<Line>)
    ensures picked == Filter(v4, lines, dropEnd)
  {
    picked := [];
    var i := 0;
    while i < |lines|
      invariant 0 <= i <= |lines| && picked == Filter(v4, lines[..i], dropEnd)
    {
      assert lines[..i + 1][..i] == lines[..i];
      if Stays(v4, lines[i]) && !(dropEnd && lines[i] == END) {
        picked := picked + [lines[i]];
      }
      i := i + 1;
    }
    assert lines[..i] == lines;
  }

  /** The rewritten sections, one after the other. */
  method CloseAll(v4: Address, lines: seq<Line>, starts: seq<nat>, extra: map<nat, seq<Line>>) returns (result: seq<Line>)
    requires starts == Starts(lines)
    ensures result == Concat(AllClosed(v4, Parse(lines).sections, extra))
  {
    ghost var sections := Parse(lines).sections;
    CountIs(lines);
    result := [];
    var s := 0;
    while s < |starts|
      invariant 0 <= s <= |starts| == |sections| && result == Concat(AllClosed(v4, sections[..s], extra))
    {
      var section := Section(lines, starts, s);
      section := Pick(v4, section, true);
      var more := Lookup(extra, s);
      OneMoreClosed(v4, sections, extra, s);
      var closed := Dedup(section + more) + [END];
      result := result + closed;
      s := s + 1;
    }
    assert sections[..s] == sections;
  }

  method EmbedCandidates(v4: Address, sdp: string, candidates: seq<Candidate>) returns (answer: string)
    ensures answer == Embedded(v4, sdp, candidates)
  {
    var lines := Lines(sdp);
    var starts := MediaStarts(lines);
    SlicesAre(lines);
    if starts == [] {
      return sdp;
    }
    var mids := FindMids(lines, starts);
    var extra := RouteAll(v4, candidates, mids, |starts|);
    var head := Pick(v4, lines[..starts[0]], false);
    var sections := CloseAll(v4, lines, starts, extra);
    RewrittenBy(v4, Parse(lines), candidates, extra);
    answer := Join(head + sections);
  }
}
