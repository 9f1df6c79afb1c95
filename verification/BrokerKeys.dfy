/** The composite key of a deferred tool call, and the scope read back out of it. */
module BrokerKeys {
  import opened Options
  import opened Text

  datatype Profile = Chat | Agent

  datatype Provider = Chatgpt | Claude | Google | CommandCode | Cavoti

  datatype BrokerKey = BrokerKey(
    profile: Option<Profile>,
    provider: Provider,
    sessionId: string,
    turnId: Option<string>,
    toolCallId: string,
    publicId: Option<string>)

  datatype Refusal = NoProfile | IncompleteKey | DuplicateCall | DuplicatePublicId | AtCapacity

  function ProfileText(p: Profile): string {
    match p case Chat => "CHAT" case Agent => "AGENT"
  }

  function ProviderText(p: Provider): string {
    match p
    case Chatgpt => "chatgpt"
    case Claude => "claude"
    case Google => "google"
    case CommandCode => "command-code"
    case Cavoti => "cavoti"
  }

  function TurnText(turn: Option<string>): string {
    match turn case None => "" case Some(t) => t
  }

  function Compose(profile: Profile, provider: Provider, sessionId: string, turn: string, toolCallId: string): string {
    ProfileText(profile) + ['|'] + (ProviderText(provider) + ['|'] + (sessionId + ['|'] + (turn + ['|'] + toolCallId)))
  }

  /** `keyOf`: refuses a key without a profile first, then one without session or call. */
  function KeyOf(key: BrokerKey): Result<string, Refusal> {
    if key.profile.None? then Err(NoProfile)
    else if key.sessionId == "" || key.toolCallId == "" then Err(IncompleteKey)
    else Ok(Compose(key.profile.value, key.provider, key.sessionId, TurnText(key.turnId), key.toolCallId))
  }

  datatype Scope = Scope(provider: string, sessionId: string)

  function SplitScope(id: string): Scope {
    var parts := Split(id, '|');
    Scope(if |parts| > 1 then parts[1] else "", if |parts| > 2 then parts[2] else "")
  }

  lemma {:induction false} NamesHoldNoSeparator(profile: Profile, provider: Provider)
    ensures '|' !in ProfileText(profile) && '|' !in ProviderText(provider)
    ensures forall p :: ProfileText(p) == ProfileText(profile) ==> p == profile
    ensures forall p :: ProviderText(p) == ProviderText(provider) ==> p == provider
  {
    assert "CHAT"[0] != "AGENT"[0];
    assert "chatgpt"[1] == 'h' && "claude"[1] == 'l' && "google"[1] == 'o' && "command-code"[1] == 'o'
        && "cavoti"[1] == 'a';
    assert |"google"| != |"command-code"|;
  }

  /** The key is injective where session and turn hold no separator; a missing turn and an empty one coincide. */
  lemma KeyIsInjective(a: BrokerKey, b: BrokerKey)
    requires KeyOf(a).Ok? && KeyOf(b).Ok?
    requires '|' !in a.sessionId && '|' !in b.sessionId
    requires '|' !in TurnText(a.turnId) && '|' !in TurnText(b.turnId)
    ensures KeyOf(a) == KeyOf(b) <==>
            && a.profile == b.profile && a.provider == b.provider && a.sessionId == b.sessionId
            && TurnText(a.turnId) == TurnText(b.turnId) && a.toolCallId == b.toolCallId
  {
    var pa, pb := ProfileText(a.profile.value), ProfileText(b.profile.value);
    var qa, qb := ProviderText(a.provider), ProviderText(b.provider);
    NamesHoldNoSeparator(a.profile.value, a.provider);
    NamesHoldNoSeparator(b.profile.value, b.provider);
    if KeyOf(a) == KeyOf(b) {
      var ta := TurnText(a.turnId) + ['|'] + a.toolCallId;
      var tb := TurnText(b.turnId) + ['|'] + b.toolCallId;
      var sa := a.sessionId + ['|'] + ta;
      var sb := b.sessionId + ['|'] + tb;
      CutAtFirst(pa, qa + ['|'] + sa, pb, qb + ['|'] + sb, '|');
      CutAtFirst(qa, sa, qb, sb, '|');
      CutAtFirst(a.sessionId, ta, b.sessionId, tb, '|');
      CutAtFirst(TurnText(a.turnId), a.toolCallId, TurnText(b.turnId), b.toolCallId, '|');
    }
  }

  /** `splitScope` always recovers the provider, and the session exactly when it holds no separator. */
  lemma ScopeIsRecovered(profile: Profile, provider: Provider, sessionId: string, turn: string, toolCallId: string)
    ensures var scope := SplitScope(Compose(profile, provider, sessionId, turn, toolCallId));
            && scope.provider == ProviderText(provider)
            && (scope.sessionId == sessionId <==> '|' !in sessionId)
  {
    NamesHoldNoSeparator(profile, provider);
    var tail := turn + ['|'] + toolCallId;
    var rest := sessionId + ['|'] + tail;
    SplitHead(ProfileText(profile), '|', ProviderText(provider) + ['|'] + rest);
    SplitHead(ProviderText(provider), '|', rest);
    if '|' !in sessionId {
      SplitHead(sessionId, '|', tail);
    } else {
      JoinSplit(rest, '|');
    }
  }

  /** Without the separator condition two different calls share one key. */
  lemma SeparatorMakesKeysCollide() returns (a: BrokerKey, b: BrokerKey)
    ensures a.sessionId != b.sessionId && KeyOf(a).Ok? && KeyOf(a) == KeyOf(b)
  {
    a := BrokerKey(Some(Agent), Chatgpt, "s|t", Some("u"), "c", None);
    b := BrokerKey(Some(Agent), Chatgpt, "s", Some("t|u"), "c", None);
    assert "s|t" + ['|'] + ("u" + ['|'] + "c") == "s" + ['|'] + ("t|u" + ['|'] + "c");
  }

  // ---- exactly when a key is shared ----

  predicate SameCall(a: BrokerKey, b: BrokerKey) {
    && a.profile == b.profile && a.provider == b.provider && a.sessionId == b.sessionId
    && TurnText(a.turnId) == TurnText(b.turnId) && a.toolCallId == b.toolCallId
  }

  /**
   * A separator that could also end another session or turn: not the session's first character, not the call's last.
   */
  predicate Ambiguous(sessionId: string, turn: string, toolCallId: string)
    requires sessionId != "" && toolCallId != ""
  {
    '|' in sessionId[1..] || '|' in turn || '|' in toolCallId[..|toolCallId| - 1]
  }

  function Joined(sessionId: string, turn: string, toolCallId: string): string {
    sessionId + ['|'] + (turn + ['|'] + toolCallId)
  }

  lemma JoinedAt(s: string, t: string, c: string, k: nat)
    requires k < |Joined(s, t, c)|
    ensures |Joined(s, t, c)| == |s| + |t| + |c| + 2
    ensures Joined(s, t, c)[k] == if k < |s| then s[k]
                                  else if k == |s| then '|'
                                  else if k < |s| + 1 + |t| then t[k - |s| - 1]
                                  else if k == |s| + 1 + |t| then '|'
                                  else c[k - |s| - |t| - 2]
  {
    var rest := t + ['|'] + c;
    assert k > |s| ==> Joined(s, t, c)[k] == rest[k - |s| - 1];
  }

  /** Where nothing is ambiguous, the places of the two separators are the only ones possible. */
  lemma OnlyOneCut(s: string, t: string, c: string, s2: string, t2: string, c2: string)
    requires s != "" && c != "" && s2 != "" && c2 != "" && !Ambiguous(s, t, c)
    requires Joined(s, t, c) == Joined(s2, t2, c2)
    ensures s == s2 && t == t2 && c == c2
  {
    var text := Joined(s, t, c);
    JoinedAt(s, t, c, 0);
    JoinedAt(s2, t2, c2, 0);
    OnlySeparators(s, t, c, |s2|);
    OnlySeparators(s, t, c, |s2| + 1 + |t2|);
    JoinedAt(s2, t2, c2, |s2|);
    JoinedAt(s2, t2, c2, |s2| + 1 + |t2|);
    Parts(s, t, c);
    Parts(s2, t2, c2);
  }

  lemma OnlySeparators(s: string, t: string, c: string, k: nat)
    requires s != "" && c != "" && !Ambiguous(s, t, c)
    requires 0 < k < |s| + |t| + |c| + 1 && |Joined(s, t, c)| == |s| + |t| + |c| + 2
    ensures Joined(s, t, c)[k] == '|' ==> k == |s| || k == |s| + 1 + |t|
  {
    JoinedAt(s, t, c, k);
    if k < |s| {
      assert s[k] == s[1..][k - 1] && s[1..][k - 1] in s[1..];
    } else if |s| + 1 + |t| < k {
      var i := k - |s| - |t| - 2;
      assert c[i] == c[..|c| - 1][i] && c[..|c| - 1][i] in c[..|c| - 1];
    }
  }

  lemma Parts(s: string, t: string, c: string)
    ensures var text := Joined(s, t, c);
            |text| == |s| + |t| + |c| + 2 && text[..|s|] == s && text[|s| + 1..][..|t|] == t
                && text[|s| + |t| + 2..] == c
  {
    var rest := t + ['|'] + c;
    assert Joined(s, t, c)[|s| + 1..] == rest;
    assert rest[|t| + 1..] == c;
  }

  lemma CutAt(s: string, k: nat)
    requires k < |s| && s[k] == '|'
    ensures s == s[..k] + ['|'] + s[k + 1..]
  {
  }

  lemma AnotherCut(s: string, t: string, c: string) returns (s2: string, t2: string, c2: string)
    requires s != "" && c != "" && Ambiguous(s, t, c)
    ensures s2 != "" && c2 != "" && Joined(s2, t2, c2) == Joined(s, t, c) && !(s2 == s && t2 == t && c2 == c)
  {
    if '|' in s[1..] {
      var k :| 0 <= k < |s[1..]| && s[1..][k] == '|';
      s2, t2, c2 := s[..k + 1], s[k + 2..] + ['|'] + t, c;
      CutAt(s, k + 1);
      assert Joined(s2, t2, c2) == (s2 + ['|'] + s[k + 2..]) + ['|'] + (t + ['|'] + c);
      assert |s2| < |s|;
    } else if '|' in t {
      var k :| 0 <= k < |t| && t[k] == '|';
      s2, t2, c2 := s + ['|'] + t[..k], t[k + 1..], c;
      CutAt(t, k);
      assert Joined(s2, t2, c2) == s + ['|'] + ((t[..k] + ['|'] + t2) + ['|'] + c);
      assert |s2| > |s|;
    } else {
      var k :| 0 <= k < |c| - 1 && c[..|c| - 1][k] == '|';
      s2, t2, c2 := s, t + ['|'] + c[..k], c[k + 1..];
      CutAt(c, k);
      assert Joined(s2, t2, c2) == s + ['|'] + (t + ['|'] + (c[..k] + ['|'] + c2));
      assert |t2| > |t|;
    }
  }

  lemma ComposeEnds(profile: Profile, provider: Provider, s: string, turn: string, c: string)
    ensures Compose(profile, provider, s, turn, c) == ProfileText(profile) + ['|']
        + (ProviderText(provider) + ['|'] + Joined(s, turn, c))
  {
  }

  /** A key's text is shared with a different call exactly when a separator in it could end another session or turn. */
  lemma KeyIsSharedExactlyWhenAmbiguous(a: BrokerKey)
    requires KeyOf(a).Ok?
    ensures (exists b: BrokerKey :: KeyOf(b) == KeyOf(a) && !SameCall(a, b)) <==>
        Ambiguous(a.sessionId, TurnText(a.turnId), a.toolCallId)
  {
    hide Joined, Ambiguous, ProfileText, ProviderText;
    ComposeEnds(a.profile.value, a.provider, a.sessionId, TurnText(a.turnId), a.toolCallId);
    if Ambiguous(a.sessionId, TurnText(a.turnId), a.toolCallId) {
      var s, t, c := AnotherCut(a.sessionId, TurnText(a.turnId), a.toolCallId);
      var b := a.(sessionId := s, turnId := Some(t), toolCallId := c);
      ComposeEnds(b.profile.value, b.provider, s, t, c);
      assert KeyOf(b) == KeyOf(a) && !SameCall(a, b);
    } else {
      forall b: BrokerKey | KeyOf(b) == KeyOf(a) ensures SameCall(a, b) {
        SameTextSameJoined(a, b);
        OnlyOneCut(a.sessionId, TurnText(a.turnId), a.toolCallId, b.sessionId, TurnText(b.turnId), b.toolCallId);
      }
    }
  }

  lemma SameTextSameJoined(a: BrokerKey, b: BrokerKey)
    requires KeyOf(a).Ok? && KeyOf(b) == KeyOf(a)
    ensures a.profile == b.profile && a.provider == b.provider
    ensures Joined(a.sessionId, TurnText(a.turnId), a.toolCallId)
        == Joined(b.sessionId, TurnText(b.turnId), b.toolCallId)
  {
    hide Joined;
    var pa, pb := ProfileText(a.profile.value), ProfileText(b.profile.value);
    var qa, qb := ProviderText(a.provider), ProviderText(b.provider);
    NamesHoldNoSeparator(a.profile.value, a.provider);
    NamesHoldNoSeparator(b.profile.value, b.provider);
    ComposeEnds(a.profile.value, a.provider, a.sessionId, TurnText(a.turnId), a.toolCallId);
    ComposeEnds(b.profile.value, b.provider, b.sessionId, TurnText(b.turnId), b.toolCallId);
    var sa := Joined(a.sessionId, TurnText(a.turnId), a.toolCallId);
    var sb := Joined(b.sessionId, TurnText(b.turnId), b.toolCallId);
    CutAtFirst(pa, qa + ['|'] + sa, pb, qb + ['|'] + sb, '|');
    CutAtFirst(qa, sa, qb, sb, '|');
  }
}
