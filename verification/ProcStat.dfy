/** Linux process-group membership from `/proc`: the stat-line parser and the
    early-exit scan for members other than the retained leader. */
module ProcStat {
  import opened Results
  import opened Decimal

  predicate IsSpace(c: char) {
    c == ' ' || c == '\t' || c == '\n' || c == '\r' || c == '\U{000B}' || c == '\U{000C}'
  }

  predicate IsWord(s: string) {
    s != [] && forall i :: 0 <= i < |s| ==> !IsSpace(s[i])
  }

  /** The length of the leading run of non-space characters. */
  function WordLength(s: string): (n: nat)
    ensures n <= |s|
  {
    if s == [] || IsSpace(s[0]) then 0 else 1 + WordLength(s[1..])
  }

  /** `strings.Fields` on ASCII white space. */
  function Fields(s: string): seq<string>
    decreases |s|
  {
    if s == [] then []
    else if IsSpace(s[0]) then Fields(s[1..])
    else [s[..WordLength(s)]] + Fields(s[WordLength(s)..])
  }

  /** `strings.LastIndexByte`: -1 when absent. */
  function LastIndex(s: string, c: char): (i: int)
    ensures -1 <= i < |s|
  {
    if s == [] then -1
    else if s[|s| - 1] == c then |s| - 1
    else LastIndex(s[..|s| - 1], c)
  }

  function ParseStatPgrp(s: string): Option<int> {
    var closeParen := LastIndex(s, ')');
    if closeParen < 0 || closeParen + 2 > |s| then None
    else
      var fields := Fields(s[closeParen + 2..]);
      if |fields| < 3 then None else Atoi(fields[2])
  }

  /** What the kernel prints after the command name; `tail` is everything past pgrp. */
  function StatFields(state: char, ppid: int, pgrp: int, tail: string): string {
    [state] + " " + (FormatInt(ppid) + " " + (FormatInt(pgrp) + " " + tail))
  }

  function StatLine(pid: int, comm: string, state: char, ppid: int, pgrp: int, tail: string): string {
    FormatInt(pid) + " (" + comm + ")" + (" " + StatFields(state, ppid, pgrp, tail))
  }

  lemma {:induction false} LastIndexAfter(a: string, c: char, b: string)
    requires forall i :: 0 <= i < |b| ==> b[i] != c
    ensures LastIndex(a + [c] + b, c) == |a|
  {
    var s := a + [c] + b;
    if b == [] {
      assert s[|s| - 1] == c;
    } else {
      assert s[|s| - 1] == b[|b| - 1];
      assert s[..|s| - 1] == a + [c] + b[..|b| - 1];
      LastIndexAfter(a, c, b[..|b| - 1]);
    }
  }

  lemma {:induction false} WordLengthOfWord(w: string, rest: string)
    requires forall i :: 0 <= i < |w| ==> !IsSpace(w[i])
    ensures WordLength(w + " " + rest) == |w|
  {
    var s := w + " " + rest;
    if w == [] {
      assert IsSpace(s[0]);
    } else {
      assert s[1..] == w[1..] + " " + rest;
      WordLengthOfWord(w[1..], rest);
    }
  }

  lemma FieldsOfWord(w: string, rest: string)
    requires IsWord(w)
    ensures Fields(w + " " + rest) == [w] + Fields(rest)
  {
    var s := w + " " + rest;
    WordLengthOfWord(w, rest);
    assert s[0] == w[0];
    assert s[..|w|] == w;
    assert s[|w|..] == " " + rest;
    assert (" " + rest)[1..] == rest;
  }

  lemma FormatIntIsWord(n: int)
    ensures IsWord(FormatInt(n))
    ensures forall i :: 0 <= i < |FormatInt(n)| ==> FormatInt(n)[i] != ')'
  {
    var m: nat := if n < 0 then -n else n;
    DigitsAreDigits(m);
    forall i | 0 <= i < |FormatInt(n)|
      ensures !IsSpace(FormatInt(n)[i]) && FormatInt(n)[i] != ')'
    {
      assert FormatInt(n)[i] == '-' || IsDigit(FormatInt(n)[i]);
    }
  }

  lemma StatFieldsParse(state: char, ppid: int, pgrp: int, tail: string)
    requires !IsSpace(state)
    ensures Fields(StatFields(state, ppid, pgrp, tail))
            == [[state]] + ([FormatInt(ppid)] + ([FormatInt(pgrp)] + Fields(tail)))
  {
    FormatIntIsWord(ppid);
    FormatIntIsWord(pgrp);
    FieldsOfWord(FormatInt(pgrp), tail);
    FieldsOfWord(FormatInt(ppid), FormatInt(pgrp) + " " + tail);
    FieldsOfWord([state], FormatInt(ppid) + " " + (FormatInt(pgrp) + " " + tail));
  }

  lemma StatFieldsHaveNoParen(state: char, ppid: int, pgrp: int, tail: string)
    requires state != ')'
    requires forall i :: 0 <= i < |tail| ==> tail[i] != ')'
    ensures forall i :: 0 <= i < |StatFields(state, ppid, pgrp, tail)| ==> StatFields(state, ppid, pgrp, tail)[i] != ')'
  {
    FormatIntIsWord(ppid);
    FormatIntIsWord(pgrp);
  }

  lemma AfterSeparator(head: string, body: string)
    ensures |head| + 2 <= |head + ")" + (" " + body)|
    ensures (head + ")" + (" " + body))[|head| + 2..] == body
  {
  }

  /** Only what follows the last parenthesis decides the parse. */
  lemma ParseSkipsCommand(head: string, body: string)
    requires forall i :: 0 <= i < |body| ==> body[i] != ')'
    requires |Fields(body)| >= 3
    ensures ParseStatPgrp(head + ")" + (" " + body)) == Atoi(Fields(body)[2])
  {
    var rest := " " + body;
    assert forall i :: 0 <= i < |rest| ==> rest[i] != ')';
    LastIndexAfter(head, ')', rest);
    AfterSeparator(head, body);
  }

  /** Whatever the command name contains, the parser recovers the group the
      kernel printed. */
  lemma ParseRecoversGroup(pid: int, comm: string, state: char, ppid: int, pgrp: int, tail: string)
    requires !IsSpace(state) && state != ')'
    requires MIN_INT64 <= pgrp <= MAX_INT64
    requires forall i :: 0 <= i < |tail| ==> tail[i] != ')'
    ensures ParseStatPgrp(StatLine(pid, comm, state, ppid, pgrp, tail)) == Some(pgrp)
  {
    StatFieldsHaveNoParen(state, ppid, pgrp, tail);
    StatFieldsParse(state, ppid, pgrp, tail);
    ParseSkipsCommand(FormatInt(pid) + " (" + comm, StatFields(state, ppid, pgrp, tail));
    AtoiRoundTrip(pgrp);
  }

  /** One `/proc` entry and what reading its stat file gives. */
  datatype StatRead = Gone | Unreadable | Content(text: string)

  datatype ProcEntry = ProcEntry(name: string, isDir: bool, stat: StatRead)

  /** Entries the scan must account for: every process but the excluded one. */
  predicate Candidate(e: ProcEntry, excludePID: int) {
    e.isDir && Atoi(e.name).Some? && Atoi(e.name).value != excludePID
  }

  predicate Member(e: ProcEntry, pgid: int, excludePID: int) {
    Candidate(e, excludePID) && e.stat.Content? && ParseStatPgrp(e.stat.text) == Some(pgid)
  }

  predicate Undetermined(e: ProcEntry, excludePID: int) {
    Candidate(e, excludePID) && (e.stat.Unreadable? || (e.stat.Content? && ParseStatPgrp(e.stat.text).None?))
  }

  /** A member appears before anything the scan could not judge. */
  ghost predicate FoundMember(entries: seq<ProcEntry>, pgid: int, excludePID: int) {
    exists k :: 0 <= k < |entries| && Member(entries[k], pgid, excludePID)
      && (forall i :: 0 <= i < k ==> !Undetermined(entries[i], excludePID))
  }

  /** Something the scan could not judge appears before any member. */
  ghost predicate FoundUndetermined(entries: seq<ProcEntry>, pgid: int, excludePID: int) {
    exists k :: 0 <= k < |entries| && Undetermined(entries[k], excludePID)
      && (forall i :: 0 <= i < k ==> !Member(entries[i], pgid, excludePID))
  }

  /** Scans the listing in order and stops at the first member or the first
      entry that cannot be judged. Absence is answered only when every entry
      was judged a non-member; an unreadable entry is an error, never absence. */
  method OtherMembersAbsent(listing: Option<seq<ProcEntry>>, pgid: int, excludePID: int)
      returns (r: Result<bool, ErrorCode>)
    ensures listing.None? ==> r.Err?
    ensures listing.Some? ==>
              (r == Ok(true) <==> forall i :: 0 <= i < |listing.value| ==>
                 !Member(listing.value[i], pgid, excludePID) && !Undetermined(listing.value[i], excludePID))
    ensures listing.Some? ==>
              (r == Ok(false) <==> FoundMember(listing.value, pgid, excludePID))
    ensures listing.Some? ==> (r.Err? <==> FoundUndetermined(listing.value, pgid, excludePID))
  {
    if listing.None? {
      return Err(IOFailure);
    }
    var entries := listing.value;
    for k := 0 to |entries|
      invariant forall i :: 0 <= i < k ==>
                  !Member(entries[i], pgid, excludePID) && !Undetermined(entries[i], excludePID)
    {
      var e := entries[k];
      if !e.isDir {
        continue;
      }
      var pid := Atoi(e.name);
      if pid.None? || pid.value == excludePID {
        continue;
      }
      match e.stat {
        case Gone =>
        case Unreadable =>
          assert Undetermined(e, excludePID);
          return Err(IOFailure);
        case Content(text) =>
          var pgrp := ParseStatPgrp(text);
          if pgrp.None? {
            assert Undetermined(e, excludePID);
            return Err(IOFailure);
          }
          if pgrp.value == pgid {
            assert Member(e, pgid, excludePID);
            return Ok(false);
          }
      }
    }
    return Ok(true);
  }
}
