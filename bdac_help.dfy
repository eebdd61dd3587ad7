/** The help catalogue of the terminal front end (bdac_help.py).

    The catalogue maps a help key to a page of text. The text is opaque to
    everything else in the program, so only the set of keys is modelled: it is
    what the front end's key resolution must land in. */
module BdacHelp {

  /** A string occurs inside another one (Python's `sub in s`). */
  predicate HasSubstring(s: string, sub: string)
    decreases |s|
  {
    if |s| < |sub| then false
    else s[..|sub|] == sub || HasSubstring(s[1..], sub)
  }

  /** A string in which no 'A' is directly followed by an 'L' contains neither "ALC" nor "ALS". */
  lemma {:induction false} NoAssistLevelPrefix(s: string)
    requires forall i | 0 <= i < |s| - 1 :: !(s[i] == 'A' && s[i + 1] == 'L')
    ensures !HasSubstring(s, "ALC") && !HasSubstring(s, "ALS")
    decreases |s|
  {
    if |s| >= 3 {
      assert s[..3][0] == s[0] && s[..3][1] == s[1];
      NoAssistLevelPrefix(s[1..]);
    }
  }

  /** The keys of the catalogue: BASIC topics, then PAS, then THROTTLE. */
  const HelpKeys: set<string> :=
    {"LBP", "LC", "ALC0-9", "WD", "SM",
     "PT", "DA-PAS", "SL-PAS", "SC-PAS", "SSM", "SDN", "WM", "SD", "CD", "TS", "KC",
     "SV", "EV", "MODE", "DA-THR", "SL-THR", "SC-THR"}

  /** The ten assist-level current fields and the ten assist-level speed-limit
      fields share one page: "ALC0-9" is a key, and it is the only key that
      mentions "ALC" or "ALS". */
  lemma SharedAssistLevelEntry()
    ensures "ALC0-9" in HelpKeys
    ensures forall k | k in HelpKeys && (HasSubstring(k, "ALC") || HasSubstring(k, "ALS")) :: k == "ALC0-9"
  {
    forall k | k in HelpKeys && k != "ALC0-9"
      ensures !HasSubstring(k, "ALC") && !HasSubstring(k, "ALS")
    {
      NoAssistLevelPrefix(k);
    }
  }

  /** The names PAS and THROTTLE both use (DA, SL, SC) are in the catalogue only
      with a section suffix; the bare names are not keys. */
  lemma ReusedNamesQualified()
    ensures "DA" !in HelpKeys && "SL" !in HelpKeys && "SC" !in HelpKeys
    ensures forall n | n in ["DA", "SL", "SC"] :: n + "-PAS" in HelpKeys && n + "-THR" in HelpKeys
  {
    assert "DA" + "-PAS" == "DA-PAS" && "SL" + "-PAS" == "SL-PAS" && "SC" + "-PAS" == "SC-PAS";
    assert "DA" + "-THR" == "DA-THR" && "SL" + "-THR" == "SL-THR" && "SC" + "-THR" == "SC-THR";
  }
}
