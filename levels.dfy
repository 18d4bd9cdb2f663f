/** The four priority / severity words shared by the log analyzer and the
    recommendation engine.  The source keeps them as plain strings and sorts
    on them, so their *string* order matters and is captured here. */
module Levels {
  import opened Text

  datatype Level = Critical | High | Medium | Low {

    function Name(): string {
      match this
      case Critical => "critical"
      case High => "high"
      case Medium => "medium"
      case Low => "low"
    }

    /** How serious the level is: low < medium < high < critical. */
    function Weight(): (w: nat)
      ensures w < 4
    {
      match this
      case Low => 0
      case Medium => 1
      case High => 2
      case Critical => 3
    }

    /** Position of Name() in Python's string order:
        "critical" < "high" < "low" < "medium". */
    function LexRank(): (k: nat)
      ensures k < 4
    {
      match this
      case Critical => 0
      case High => 1
      case Low => 2
      case Medium => 3
    }
  }

  /** LexRank agrees with comparing the names as Python strings. */
  lemma {:induction false} LexRankOrdersNames(a: Level, b: Level)
    ensures StrLess(a.Name(), b.Name()) <==> a.LexRank() < b.LexRank()
  {
    if a == b {
      StrLessIrreflexive(a.Name());
    } else {
      assert a.Name()[0] != b.Name()[0];
    }
  }

  lemma {:induction false} StrLessIrreflexive(s: string)
    ensures !StrLess(s, s)
  {
    if |s| > 0 {
      StrLessIrreflexive(s[1..]);
    }
  }

  /** Different levels have different names, so equal names mean equal levels. */
  lemma {:induction false} NameInjective(a: Level, b: Level)
    ensures a.Name() == b.Name() <==> a == b
  {
    if a != b {
      assert a.Name()[0] != b.Name()[0];
    }
  }
}
