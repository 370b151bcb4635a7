/** When the ids the owners derive from names tell their owners apart. */
module Identifiers {
  import opened Basics
  import opened AcpAdmission
  import opened Dispatch
  import opened Convergence

  // ---------------------------------------------------------------- joining with a colon

  /** `y` goes on where `x` ends: the colon after `x` is one inside `y`. */
  predicate Shifts(x: string, i: string, y: string, j: string) {
    |x| < |y| && y[..|x| + 1] == x + ":" && i == y[|x| + 1..] + ":" + j
  }

  /** Two joined names are equal only if they were split alike, or one first part runs into
      the other's second. */
  lemma JoinsMeet(x: string, i: string, y: string, j: string)
    ensures x + ":" + i == y + ":" + j <==> (x == y && i == j) || Shifts(x, i, y, j) || Shifts(y, j, x, i)
  {
    if x + ":" + i == y + ":" + j {
      if |x| == |y| {
        SameSplit(x, i, y, j);
      } else if |x| < |y| {
        ShortSplit(x, i, y, j);
      } else {
        ShortSplit(y, j, x, i);
      }
    }
    if Shifts(x, i, y, j) {
      ShiftJoins(x, i, y, j);
    }
    if Shifts(y, j, x, i) {
      ShiftJoins(y, j, x, i);
    }
  }

  lemma SameSplit(x: string, i: string, y: string, j: string)
    requires x + ":" + i == y + ":" + j && |x| == |y|
    ensures x == y && i == j
  {
    var s := x + ":" + i;
    assert x == s[..|x|] && y == s[..|y|] && i == s[|x| + 1..] && j == s[|y| + 1..];
  }

  lemma ShortSplit(x: string, i: string, y: string, j: string)
    requires x + ":" + i == y + ":" + j && |x| < |y|
    ensures Shifts(x, i, y, j)
  {
    var s := x + ":" + i;
    assert s[..|y|] == y && s[|x| + 1..] == i && s[..|x| + 1] == x + ":";
    assert y[..|x| + 1] == s[..|x| + 1];
    assert s == y + (":" + j) && s[|x| + 1..] == y[|x| + 1..] + (":" + j);
    assert y[|x| + 1..] + (":" + j) == y[|x| + 1..] + ":" + j;
  }

  lemma ShiftJoins(x: string, i: string, y: string, j: string)
    requires Shifts(x, i, y, j)
    ensures x + ":" + i == y + ":" + j
  {
    var u := y[|x| + 1..];
    assert y == x + ":" + u;
    assert x + ":" + (u + ":" + j) == (x + ":" + u) + ":" + j;
  }

  lemma NoColonNoShift(x: string, i: string, y: string, j: string)
    requires ':' !in i
    ensures !Shifts(x, i, y, j)
  {
    if Shifts(x, i, y, j) {
      ShiftHasColon(x, i, y, j);
    }
  }

  lemma ShiftHasColon(x: string, i: string, y: string, j: string)
    requires Shifts(x, i, y, j)
    ensures ':' in i
  {
    assert i[|y| - |x| - 1] == ':';
  }

  // ---------------------------------------------------------------- agent bindings

  /** For agents whose id holds no colon, the canonical binding id names one Session and
      one agent. */
  lemma CanonicalBindingIdInjective(s: string, a: string, t: string, b: string)
    requires ':' !in a && ':' !in b
    ensures CanonicalBindingId(s, CanonicalWorkId(s), a) == CanonicalBindingId(t, CanonicalWorkId(t), b)
            <==> s == t && a == b
  {
    BindingSplit(s, a, t, b);
    JoinsMeet(s + ":" + s, a, t + ":" + t, b);
    NoColonNoShift(s + ":" + s, a, t + ":" + t, b);
    NoColonNoShift(t + ":" + t, b, s + ":" + s, a);
    if s + ":" + s == t + ":" + t {
      assert s == (s + ":" + s)[..|s|] && t == (t + ":" + t)[..|t|];
    }
  }

  lemma BindingSplit(s: string, a: string, t: string, b: string)
    ensures CanonicalBindingId(s, CanonicalWorkId(s), a) == CanonicalBindingId(t, CanonicalWorkId(t), b)
            <==> (s + ":" + s) + ":" + a == (t + ":" + t) + ":" + b
  {
    var x, y := CanonicalBindingId(s, s, a), CanonicalBindingId(t, t, b);
    assert x == "acp-binding:" + ((s + ":" + s) + ":" + a) && y == "acp-binding:" + ((t + ":" + t) + ":" + b);
    assert x[12..] == (s + ":" + s) + ":" + a && y[12..] == (t + ":" + t) + ":" + b;
  }

  /** Over all agents: two ids are equal exactly for one Session and agent, or where one
      Session's id goes on where the other's ends and the agent makes up for it. */
  lemma CanonicalBindingIdMeets(s: string, a: string, t: string, b: string)
    ensures CanonicalBindingId(s, CanonicalWorkId(s), a) == CanonicalBindingId(t, CanonicalWorkId(t), b)
            <==> (s == t && a == b) || Shifts(s, s + ":" + a, t, t + ":" + b) || Shifts(t, t + ":" + b, s, s + ":" + a)
  {
    BindingSplit(s, a, t, b);
    assert (s + ":" + s) + ":" + a == s + ":" + (s + ":" + a) && (t + ":" + t) + ":" + b == t + ":" + (t + ":" + b);
    JoinsMeet(s, s + ":" + a, t, t + ":" + b);
    if s == t && s + ":" + a == t + ":" + b {
      SameSplit(s, a, t, b);
    }
  }

  /** Such a pair: two Sessions and two agents, one id. */
  lemma CanonicalBindingIdCollides()
    ensures CanonicalBindingId("x", CanonicalWorkId("x"), "x:x:q")
            == CanonicalBindingId("x:x", CanonicalWorkId("x:x"), "q")
  {
    assert "x" + ":" + "x" + ":" + "x:x:q" == "x:x" + ":" + "x:x" + ":" + "q";
  }

  // ---------------------------------------------------------------- occurrences

  /** The suffix of the Session id of a later generation. */
  function Suffix(generation: nat): string {
    "g" + Decimal(generation)
  }

  /** An automation's first Session has the id of a later generation's Session. */
  predicate SessionTaken(first: Occurrence, later: Occurrence) {
    first.generation <= 1 < later.generation
    && first.automation == later.automation + ":" + Suffix(later.generation)
  }

  /** Over all names: Session ids are equal exactly within one automation and generation
      (where 0 counts as 1), or if one automation is named like a generation of another. */
  lemma SessionIdsMeet(a: Occurrence, b: Occurrence)
    ensures a.SessionId() == b.SessionId()
            <==> (a.automation == b.automation
                  && (a.generation == b.generation || (a.generation <= 1 && b.generation <= 1)))
                 || SessionTaken(a, b) || SessionTaken(b, a)
  {
    SessionIdParts(a);
    SessionIdParts(b);
    if a.generation > 1 && b.generation > 1 {
      JoinsMeet(a.automation, Suffix(a.generation), b.automation, Suffix(b.generation));
      NoColonNoShift(a.automation, Suffix(a.generation), b.automation, Suffix(b.generation));
      NoColonNoShift(b.automation, Suffix(b.generation), a.automation, Suffix(a.generation));
      if Suffix(a.generation) == Suffix(b.generation) {
        assert Decimal(a.generation) == Suffix(a.generation)[1..] && Decimal(b.generation) == Suffix(b.generation)[1..];
        DecimalInjective(a.generation, b.generation);
      }
    } else if a.generation > 1 {
      LongerJoin(a.automation, Suffix(a.generation));
    } else if b.generation > 1 {
      LongerJoin(b.automation, Suffix(b.generation));
    }
  }

  lemma SessionIdParts(occ: Occurrence)
    ensures occ.SessionId()[..19] == "automation-session:"
    ensures occ.SessionId()[19..] == if occ.generation <= 1 then occ.automation
                                     else occ.automation + ":" + Suffix(occ.generation)
    ensures occ.SessionId() == "automation-session:" + occ.SessionId()[19..]
    ensures ':' !in Suffix(occ.generation)
  {
    assert "automation-session:" + occ.automation + ":g" + Decimal(occ.generation)
        == "automation-session:" + (occ.automation + ":" + Suffix(occ.generation));
  }

  lemma LongerJoin(x: string, i: string)
    ensures x + ":" + i != x
  {
    assert |x + ":" + i| > |x|;
  }

  lemma WorkIdsMeet(a: Occurrence, b: Occurrence)
    ensures a.WorkId() == b.WorkId() <==> a.RunId() == b.RunId()
    ensures a.WorkId() == b.WorkId() <==> a.automation + ":" + a.id == b.automation + ":" + b.id
  {
    var x, y := a.automation + ":" + a.id, b.automation + ":" + b.id;
    assert a.WorkId() == "automation-work:" + x && b.WorkId() == "automation-work:" + y;
    assert a.RunId() == "automation-run:" + x && b.RunId() == "automation-run:" + y;
    assert a.WorkId()[16..] == x && b.WorkId()[16..] == y && a.RunId()[15..] == x && b.RunId()[15..] == y;
  }

  /** Over all names: when two occurrences share neither Work nor Run, nor the Session of
      another automation or generation. */
  lemma ApartExactly(a: Occurrence, b: Occurrence)
    requires a.generation >= 1 && b.generation >= 1
    ensures Apart(a, b) <==>
            && (a.automation, a.id) != (b.automation, b.id)
            && !Shifts(a.automation, a.id, b.automation, b.id) && !Shifts(b.automation, b.id, a.automation, a.id)
            && !SessionTaken(a, b) && !SessionTaken(b, a)
  {
    WorkIdsMeet(a, b);
    JoinsMeet(a.automation, a.id, b.automation, b.id);
    SessionIdsMeet(a, b);
    if SessionTaken(a, b) {
      LongerJoin(b.automation, Suffix(b.generation));
    }
    if SessionTaken(b, a) {
      LongerJoin(a.automation, Suffix(a.generation));
    }
  }

  predicate HexDigits(s: string) {
    forall i :: 0 <= i < |s| ==> '0' <= s[i] <= '9' || 'a' <= s[i] <= 'f'
  }

  /** The shape of the ids the scheduler issues: the digest of the registry key behind
      `automation:auto:`, half a digest behind `occ:`, and generations counted from one. */
  predicate Issued(occ: Occurrence) {
    && |occ.automation| == 80 && occ.automation[..16] == "automation:auto:" && HexDigits(occ.automation[16..])
    && |occ.id| == 36 && occ.id[..4] == "occ:" && HexDigits(occ.id[4..])
    && occ.generation >= 1
  }

  /** Occurrences the scheduler issued never share a Work or a Run, and share a Session only
      within one generation of one automation. */
  lemma OccurrencesApart(a: Occurrence, b: Occurrence)
    requires Issued(a) && Issued(b)
    ensures Apart(a, b) <==> (a.automation, a.id) != (b.automation, b.id)
  {
    ApartExactly(a, b);
    if SessionTaken(a, b) {
      TakenIsLonger(a, b);
    }
    if SessionTaken(b, a) {
      TakenIsLonger(b, a);
    }
  }

  lemma TakenIsLonger(first: Occurrence, later: Occurrence)
    requires SessionTaken(first, later)
    ensures |first.automation| > |later.automation|
  {
  }
}
