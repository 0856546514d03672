/** Cross-device sessions: the bridge PC generates a code such as "AB3D-7KPQ",
    other devices join the realtime channel named after it, and the host
    broadcasts its flight route there. The realtime service itself is not
    modelled; a channel is identified by its name. */
module Session {
  import opened Common

  /** The code alphabet: upper-case letters and digits without I, O, 0 and 1. */
  const Alphabet: string := "ABCDEFGHJKLMNPQRSTUVWXYZ23456789"

  /** The code's shape: four alphabet characters, a dash, four more. */
  predicate IsSessionCode(c: string) {
    |c| == 9 && c[4] == '-'
    && forall k :: 0 <= k < 9 && k != 4 ==> c[k] in Alphabet
  }

  predicate ValidDraws(draws: seq<nat>) {
    |draws| == 8 && forall i :: 0 <= i < 8 ==> draws[i] < |Alphabet|
  }

  /** The first `n` characters the generator produces from its draws. */
  function CodePrefix(draws: seq<nat>, n: nat): (c: string)
    requires ValidDraws(draws) && n <= 9
    ensures |c| == n
  {
    seq(n, k requires 0 <= k < n => if k < 4 then Alphabet[draws[k]] else if k == 4 then '-' else Alphabet[draws[k - 1]])
  }

  /** Builds a code from eight random indices into the alphabet (the draws of
      `Math.floor(Math.random() * 32)`), inserting the dash before the fifth. */
  method GenerateSessionCode(draws: seq<nat>) returns (code: string)
    requires ValidDraws(draws)
    ensures IsSessionCode(code)
    ensures code == CodePrefix(draws, 9)
  {
    code := "";
    var i := 0;
    while i < 8
      invariant 0 <= i <= 8
      invariant code == CodePrefix(draws, if i > 4 then i + 1 else i)
    {
      if i == 4 {
        code := code + "-";
      }
      code := code + [Alphabet[draws[i]]];
      i := i + 1;
    }
  }

  // ---------------------------------------------------------------------------
  // Normalisation of a typed code

  predicate IsCodeChar(c: char) { IsAsciiUpper(c) || IsAsciiDigit(c) }

  /** `replace(/[^A-Z0-9]/g, '')`. */
  function KeepCodeChars(s: string): (r: string)
    ensures |r| <= |s|
    ensures forall k :: 0 <= k < |r| ==> IsCodeChar(r[k])
  {
    if s == [] then []
    else
      var r := KeepCodeChars(s[..|s| - 1]);
      if IsCodeChar(s[|s| - 1]) then r + [s[|s| - 1]] else r
  }

  lemma {:induction false} KeepCodeCharsAppend(a: string, b: string)
    ensures KeepCodeChars(a + b) == KeepCodeChars(a) + KeepCodeChars(b)
    decreases |b|
  {
    if b == [] {
      assert a + b == a;
    } else {
      var bi := b[..|b| - 1];
      assert (a + b)[..|a + b| - 1] == a + bi;
      KeepCodeCharsAppend(a, bi);
    }
  }

  lemma {:induction false} KeepCodeCharsOfCodeChars(s: string)
    requires forall k :: 0 <= k < |s| ==> IsCodeChar(s[k])
    ensures KeepCodeChars(s) == s
    decreases |s|
  {
    if s != [] {
      KeepCodeCharsOfCodeChars(s[..|s| - 1]);
    }
  }

  /** The code as `joinSession` uses it: upper-cased and stripped to letters
      and digits; exactly eight left are re-grouped as four, a dash and four,
      anything else is the upper-cased input as typed. */
  function NormalizeCode(code: string): (r: string)
    ensures |KeepCodeChars(ToUpper(code))| == 8 ==>
      |r| == 9 && r[4] == '-' && KeepCodeChars(r) == KeepCodeChars(ToUpper(code))
    ensures |KeepCodeChars(ToUpper(code))| != 8 ==> r == ToUpper(code)
  {
    var n := KeepCodeChars(ToUpper(code));
    if |n| == 8 then
      var r := n[..4] + "-" + n[4..];
      KeepCodeCharsAppend(n[..4] + "-", n[4..]);
      KeepCodeCharsAppend(n[..4], "-");
      KeepCodeCharsOfCodeChars(n[..4]);
      KeepCodeCharsOfCodeChars(n[4..]);
      assert n[..4] + n[4..] == n;
      r
    else ToUpper(code)
  }

  lemma SessionCodeText(c: string)
    requires IsSessionCode(c)
    ensures forall k :: 0 <= k < 9 && k != 4 ==> IsCodeChar(c[k])
  {
    assert forall k :: 0 <= k < |Alphabet| ==> IsCodeChar(Alphabet[k]);
  }

  /** Upper-casing leaves code characters and dashes alone. */
  lemma UpperCaseText(s: string)
    requires forall k :: 0 <= k < |s| ==> IsCodeChar(s[k]) || s[k] == '-'
    ensures ToUpper(s) == s
  {
  }

  /** Round trip: a generated code is joined under exactly the same code. */
  lemma NormalizeGenerated(c: string)
    requires IsSessionCode(c)
    ensures NormalizeCode(c) == c
  {
    SessionCodeText(c);
    UpperCaseText(c);
    StripSessionCode(c);
    var n := c[..4] + c[5..];
    assert n[..4] == c[..4] && n[4..] == c[5..];
    assert c == c[..4] + "-" + c[5..];
  }

  /** Stripping a code of the generated shape drops just its dash. */
  lemma StripSessionCode(c: string)
    requires |c| == 9 && c[4] == '-'
    requires forall k :: 0 <= k < 9 && k != 4 ==> IsCodeChar(c[k])
    ensures KeepCodeChars(c) == c[..4] + c[5..]
  {
    var a := c[..4];
    var b := c[5..];
    assert c == a + "-" + b;
    KeepCodeCharsAppend(a + "-", b);
    KeepCodeCharsAppend(a, "-");
    KeepCodeCharsOfCodeChars(a);
    KeepCodeCharsOfCodeChars(b);
  }

  /** Normalising twice is normalising once. */
  lemma NormalizeIdempotent(code: string)
    ensures NormalizeCode(NormalizeCode(code)) == NormalizeCode(code)
  {
    var u := ToUpper(code);
    var n := KeepCodeChars(u);
    ToUpperIdempotent(code);
    if |n| == 8 {
      var r := NormalizeCode(code);
      assert forall k :: 0 <= k < 9 ==> IsCodeChar(r[k]) || r[k] == '-' by {
        assert r == n[..4] + "-" + n[4..];
      }
      assert ToUpper(r) == r;
    }
  }

  // ---------------------------------------------------------------------------
  // The session state

  function ChannelName(code: string): string { "session:" + code }

  /** The module-level state: the current channel and the current code. */
  datatype SessionState = SessionState(channel: Option<string>, code: Option<string>)

  const NoSession := SessionState(None, None)

  /** A channel is open exactly when a code is set, and it is that code's
      channel. */
  predicate Consistent(st: SessionState) {
    st.channel == (if st.code.Some? then Some(ChannelName(st.code.value)) else None)
  }

  /** `leaveSession`: unsubscribes any channel and clears the code. */
  function LeaveStep(st: SessionState): (r: SessionState)
    ensures r.channel.None? && r.code.None? && Consistent(r)
  {
    NoSession
  }

  /** `joinAsHost`: nothing without a configured client or when already on
      the same code with a channel; otherwise leaves any channel and joins the
      code's channel. */
  function JoinAsHostStep(st: SessionState, configured: bool, code: string): (r: SessionState)
    ensures !configured ==> r == st
    ensures st.code == Some(code) && st.channel.Some? ==> r == st
    ensures configured && !(st.code == Some(code) && st.channel.Some?) ==>
      r.code == Some(code) && r.channel == Some(ChannelName(code))
  {
    if !configured then st
    else if st.code == Some(code) && st.channel.Some? then st
    else SessionState(Some(ChannelName(code)), Some(code))
  }

  /** `joinSession`: without a configured client it fails (`None`); otherwise
      it joins the normalised code's channel and returns that code. */
  function JoinSessionStep(st: SessionState, configured: bool, code: string): (r: (SessionState, Option<string>))
    ensures !configured ==> r == (st, None)
    ensures configured ==>
      r.1 == Some(NormalizeCode(code)) && r.0.code == r.1 && r.0.channel == Some(ChannelName(NormalizeCode(code)))
  {
    if !configured then (st, None)
    else
      var formatted := NormalizeCode(code);
      (SessionState(Some(ChannelName(formatted)), Some(formatted)), Some(formatted))
  }

  /** `broadcastFlightRoute` sends only with a channel and a code that is
      not empty (an empty code is falsy). */
  function BroadcastAllowed(st: SessionState): (ok: bool)
    ensures ok <==> st.channel.Some? && st.code.Some? && st.code.value != ""
  {
    st.channel.Some? && st.code.Some? && st.code.value != ""
  }

  /** Every transition keeps a channel and its code together. */
  lemma TransitionsKeepConsistent(st: SessionState, configured: bool, code: string)
    requires Consistent(st)
    ensures Consistent(LeaveStep(st))
    ensures Consistent(JoinAsHostStep(st, configured, code))
    ensures Consistent(JoinSessionStep(st, configured, code).0)
  {
  }

  /** In a consistent state the route is broadcast exactly when a non-empty
      code is set. */
  lemma BroadcastNeedsSession(st: SessionState)
    requires Consistent(st)
    ensures BroadcastAllowed(st) <==> st.code.Some? && st.code.value != ""
  {
  }

  /** Joining with an empty code sets an empty code on a channel, and nothing
      is broadcast from that session. */
  lemma EmptyJoinCannotBroadcast(st: SessionState)
    ensures JoinSessionStep(st, true, "").0.code == Some("")
    ensures !BroadcastAllowed(JoinSessionStep(st, true, "").0)
  {
    assert ToUpper("") == "";
  }

  /** Joining as host twice with the same code is joining once. */
  lemma JoinAsHostIdempotent(st: SessionState, configured: bool, code: string)
    ensures JoinAsHostStep(JoinAsHostStep(st, configured, code), configured, code) == JoinAsHostStep(st, configured, code)
  {
  }

  /** A device that joins with a generated code lands on the host's channel. */
  lemma JoinMeetsHost(st: SessionState, st2: SessionState, c: string)
    requires IsSessionCode(c)
    requires st.code != Some(c) || st.channel.None?
    ensures JoinSessionStep(st2, true, c).0 == JoinAsHostStep(st, true, c)
  {
    NormalizeGenerated(c);
  }

  /** The session service with its module-level variables as fields. */
  class SessionService {
    /** Whether a realtime client is configured. */
    const configured: bool
    var currentChannel: Option<string>
    var currentSessionCode: Option<string>
    /** Channels unsubscribed so far, in order. */
    ghost var unsubscribed: seq<string>

    function State(): SessionState
      reads this
    {
      SessionState(currentChannel, currentSessionCode)
    }

    constructor (isConfigured: bool)
      ensures configured == isConfigured && State() == NoSession && unsubscribed == []
    {
      configured := isConfigured;
      currentChannel := None;
      currentSessionCode := None;
      unsubscribed := [];
    }

    method LeaveSession()
      modifies this
      ensures State() == LeaveStep(old(State()))
      ensures unsubscribed == old(unsubscribed) + (if old(currentChannel).Some? then [old(currentChannel).value] else [])
    {
      if currentChannel.Some? {
        unsubscribed := unsubscribed + [currentChannel.value];
        currentChannel := None;
      }
      currentSessionCode := None;
    }

    method JoinAsHost(code: string)
      modifies this
      ensures State() == JoinAsHostStep(old(State()), configured, code)
    {
      if !configured {
        return;
      }
      if currentSessionCode == Some(code) && currentChannel.Some? {
        return;
      }
      if currentChannel.Some? {
        LeaveSession();
      }
      currentSessionCode := Some(code);
      currentChannel := Some(ChannelName(code));
    }

    /** Returns the code joined, or `None` where the source throws. */
    method JoinSession(code: string) returns (joined: Option<string>)
      modifies this
      ensures (State(), joined) == JoinSessionStep(old(State()), configured, code)
    {
      if !configured {
        return None;
      }
      var normalizedCode := KeepCodeChars(ToUpper(code));
      var formattedCode := if |normalizedCode| == 8 then normalizedCode[..4] + "-" + normalizedCode[4..] else ToUpper(code);
      if currentChannel.Some? {
        LeaveSession();
      }
      currentSessionCode := Some(formattedCode);
      currentChannel := Some(ChannelName(formattedCode));
      joined := Some(formattedCode);
    }

    /** Starts a new session under a freshly generated code; `None` where the
        source throws. */
    method CreateSession(draws: seq<nat>) returns (created: Option<string>)
      requires ValidDraws(draws)
      modifies this
      ensures !configured ==> created == None && State() == old(State())
      ensures configured ==>
        created.Some? && IsSessionCode(created.value) && State() == SessionState(Some(ChannelName(created.value)), created)
    {
      if !configured {
        return None;
      }
      if currentChannel.Some? {
        LeaveSession();
      }
      var code := GenerateSessionCode(draws);
      currentSessionCode := Some(code);
      currentChannel := Some(ChannelName(code));
      created := Some(code);
    }

    /** Returns whether the route was sent; the state is not changed. */
    method BroadcastFlightRoute() returns (sent: bool)
      ensures sent == BroadcastAllowed(State())
    {
      if currentChannel.None? {
        return false;
      }
      if currentSessionCode.None? || currentSessionCode.value == "" {
        return false;
      }
      sent := true;
    }
  }
}
