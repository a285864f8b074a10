/** Agent names: trimmed, checked against `^[a-zA-Z][a-zA-Z0-9_-]{0,31}$`, lower-cased and not reserved. */
module AgentNames {
  import opened Text
  import opened LeafToken

  const RESERVED_AGENT_NAMES: set<string> :=
    {"all", "from", "user", "system", "ask", "cancel", "clear", "pend", "ping", "watch", "kill",
     "ps", "logs", "doctor", "config", "cmd", "version", "update", "help"}

  function LowerChar(c: char): char { if 'A' <= c <= 'Z' then (c as int + 32) as char else c }

  /** `to_lowercase`, on ASCII text. */
  function Lower(s: string): (r: string)
    ensures |r| == |s| && forall i :: 0 <= i < |s| ==> r[i] == LowerChar(s[i])
  {
    seq(|s|, i requires 0 <= i < |s| => LowerChar(s[i]))
  }

  predicate MatchesAgentName(s: string) { 1 <= |s| <= 32 && IsAlpha(s[0]) && AllIn(ProviderChar, s) }

  function NormalizeAgentName(name: string): Option<string> {
    var value := Trim(name);
    if !MatchesAgentName(value) then None
    else if Lower(value) in RESERVED_AGENT_NAMES then None
    else Some(Lower(value))
  }

  /** The names that normalisation produces. */
  predicate IsAgentName(s: string) { MatchesAgentName(s) && Lower(s) == s && s !in RESERVED_AGENT_NAMES }

  lemma TrimOfTrimmed(s: string)
    requires Trimmed(s)
    ensures Trim(s) == s
  {
    hide IsSpace;
    if s != [] {
      assert TrimStart(s) == s;
    }
  }

  /** Lower-casing moves exactly the 26 capital letters, each to its small one. */
  lemma LowerExactly(c: char)
    ensures 'A' <= c <= 'Z' <==> LowerChar(c) != c
    ensures 'A' <= c <= 'Z' ==> 'a' <= LowerChar(c) <= 'z' && LowerChar(c) as int - 'a' as int == c as int - 'A' as int
  {}

  /** A name has 1 to 32 characters: a letter, then letters, digits, `_` and `-`. */
  lemma NameShape(s: string)
    ensures MatchesAgentName(s) <==>
      && 0 < |s| < 33 && ('a' <= s[0] <= 'z' || 'A' <= s[0] <= 'Z')
      && forall i :: 0 <= i < |s| ==>
           'a' <= s[i] <= 'z' || 'A' <= s[i] <= 'Z' || '0' <= s[i] <= '9' || s[i] == '_' || s[i] == '-'
  {}

  /** What a name may be: trimmed and lower-cased it has the shape of a name and is not reserved. */
  lemma NormalizeExactly(name: string)
    ensures NormalizeAgentName(name).Some? <==>
              MatchesAgentName(Trim(name)) && Lower(Trim(name)) !in RESERVED_AGENT_NAMES
    ensures NormalizeAgentName(name).Some? ==> NormalizeAgentName(name).value == Lower(Trim(name))
  {
    hide Trim, Lower;
  }

  /** The names of commands and senders that no agent may have. */
  lemma ReservedExactly(name: string)
    ensures name in RESERVED_AGENT_NAMES <==>
      || name == "all" || name == "ask" || name == "cancel" || name == "clear" || name == "cmd" || name == "config"
      || name == "doctor" || name == "from" || name == "help" || name == "kill" || name == "logs" || name == "pend"
      || name == "ping" || name == "ps" || name == "system" || name == "update" || name == "user" || name == "version"
      || name == "watch"
  {}

  lemma LowerKeepsName(s: string)
    requires MatchesAgentName(s)
    ensures MatchesAgentName(Lower(s)) && Lower(Lower(s)) == Lower(s)
  {}

  lemma AgentNameIsTrimmed(s: string)
    requires MatchesAgentName(s)
    ensures Trimmed(s)
  {}

  /** Normalisation produces agent names and leaves exactly them alone; an agent name is a pane name, and not `cmd`. */
  lemma NormalizeFixpoint(name: string)
    ensures NormalizeAgentName(name).Some? ==> IsAgentName(NormalizeAgentName(name).value)
    ensures NormalizeAgentName(name) == Some(name) <==> IsAgentName(name)
    ensures IsAgentName(name) ==> IsName(name) && name != "cmd" && name != ""
  {
    var value := Trim(name);
    if MatchesAgentName(value) { LowerKeepsName(value); }
    if IsAgentName(name) {
      AgentNameIsTrimmed(name);
      TrimOfTrimmed(name);
    }
  }
}
