/**
 * The profile editor of src/components/UserProfile.js: nickname validation and trimming, the
 * save with its two store calls, and the 5-second local cache of the loaded nickname. The
 * signed-in user's `userProfiles` document is part of the state; store calls of a save are
 * numbered 0 (write) and 1 (read back), `failAt` being the first that throws.
 */
module UserProfile {
  import opened Common

  /** JavaScript's WhiteSpace and LineTerminator characters, as `String.prototype.trim` strips. */
  predicate IsJsWhitespace(c: char)
  {
    c == '\t' || c == '\n' || c == '\U{000B}' || c == '\U{000C}' || c == '\r' || c == ' '
    || c == '\U{00A0}' || c == '\U{1680}' || ('\U{2000}' <= c <= '\U{200A}')
    || c == '\U{2028}' || c == '\U{2029}' || c == '\U{202F}' || c == '\U{205F}'
    || c == '\U{3000}' || c == '\U{FEFF}'
  }

  predicate AllWhitespace(s: string)
  {
    forall k :: 0 <= k < |s| ==> IsJsWhitespace(s[k])
  }

  /** Neither end is whitespace. */
  predicate Trimmed(s: string)
  {
    s == [] || (!IsJsWhitespace(s[0]) && !IsJsWhitespace(s[|s| - 1]))
  }

  function TrimStart(s: string): (r: string)
    ensures |r| <= |s|
    ensures AllWhitespace(s[..|s| - |r|])
    ensures r == [] || !IsJsWhitespace(r[0])
  {
    if s != [] && IsJsWhitespace(s[0]) then TrimStart(s[1..]) else s
  }

  function TrimEnd(s: string): (r: string)
    ensures |r| <= |s|
    ensures AllWhitespace(s[|r|..])
    ensures r == [] || !IsJsWhitespace(r[|r| - 1])
  {
    if s != [] && IsJsWhitespace(s[|s| - 1]) then TrimEnd(s[..|s| - 1]) else s
  }

  /** `trimStart` keeps a suffix of its input. */
  lemma {:induction false} TrimStartIsSuffix(s: string)
    ensures TrimStart(s) == s[|s| - |TrimStart(s)|..]
    decreases |s|
  {
    if s != [] && IsJsWhitespace(s[0]) {
      TrimStartIsSuffix(s[1..]);
      assert s[1..][|s| - 1 - |TrimStart(s)|..] == s[|s| - |TrimStart(s)|..];
    }
  }

  /** `trimEnd` keeps a prefix of its input. */
  lemma {:induction false} TrimEndIsPrefix(s: string)
    ensures TrimEnd(s) == s[..|TrimEnd(s)|]
    decreases |s|
  {
    if s != [] && IsJsWhitespace(s[|s| - 1]) {
      TrimEndIsPrefix(s[..|s| - 1]);
      assert s[..|s| - 1][..|TrimEnd(s)|] == s[..|TrimEnd(s)|];
    }
  }

  /** `s.trim()`. */
  function Trim(s: string): string
  {
    TrimEnd(TrimStart(s))
  }

  lemma SliceOfSuffix(s: string, i: nat, n: nat)
    requires i + n <= |s|
    ensures s[i..][..n] == s[i..i + n] && s[i..][n..] == s[i + n..]
  {
  }

  lemma {:induction false} TrimEndKeepsStart(s: string)
    requires s == [] || !IsJsWhitespace(s[0])
    ensures var r := TrimEnd(s); r == [] || !IsJsWhitespace(r[0])
  {
    TrimEndIsPrefix(s);
  }

  /** The result of `trim` has no whitespace at either end. */
  lemma TrimIsTrimmed(s: string)
    ensures Trimmed(Trim(s))
  {
    TrimEndKeepsStart(TrimStart(s));
  }

  /** How many characters `trim` cuts from the front. */
  function Leading(s: string): nat
  {
    |s| - |TrimStart(s)|
  }

  /** `trim` keeps one contiguous slice of its input, starting after the leading whitespace. */
  lemma TrimIsSlice(s: string)
    ensures Leading(s) + |Trim(s)| <= |s|
    ensures Trim(s) == s[Leading(s)..Leading(s) + |Trim(s)|]
  {
    TrimStartIsSuffix(s);
    TrimEndIsPrefix(TrimStart(s));
    SliceOfSuffix(s, Leading(s), |Trim(s)|);
  }

  /** What `trim` cuts, in front of and behind that slice, is whitespace only. */
  lemma TrimCutsOnlyWhitespace(s: string)
    ensures Leading(s) + |Trim(s)| <= |s|
    ensures AllWhitespace(s[..Leading(s)])
    ensures AllWhitespace(s[Leading(s) + |Trim(s)|..])
  {
    TrimStartIsSuffix(s);
    TrimEndIsPrefix(TrimStart(s));
    SliceOfSuffix(s, Leading(s), |Trim(s)|);
  }

  lemma {:induction false} TrimStartPadding(pre: string, t: string)
    requires AllWhitespace(pre) && (t == [] || !IsJsWhitespace(t[0]))
    ensures TrimStart(pre + t) == t
    decreases |pre|
  {
    if pre == [] {
      assert pre + t == t;
    } else {
      assert (pre + t)[1..] == pre[1..] + t;
      TrimStartPadding(pre[1..], t);
    }
  }

  lemma {:induction false} TrimEndPadding(t: string, post: string)
    requires AllWhitespace(post) && (t == [] || !IsJsWhitespace(t[|t| - 1]))
    ensures TrimEnd(t + post) == t
    decreases |post|
  {
    if post == [] {
      assert t + post == t;
    } else {
      var u := t + post;
      assert u[..|u| - 1] == t + post[..|post| - 1];
      TrimEndPadding(t, post[..|post| - 1]);
    }
  }

  /** Surrounding whitespace is exactly what `trim` removes. */
  lemma TrimRemovesPadding(pre: string, t: string, post: string)
    requires AllWhitespace(pre) && AllWhitespace(post) && Trimmed(t)
    ensures Trim(pre + t + post) == t
  {
    if t == [] {
      assert pre + t + post == pre + post;
      if post == [] {
        assert pre + post == pre + [];
      }
      AllWhitespaceTrimStart(pre + post);
      assert TrimStart(pre + post) == [];
    } else {
      assert pre + t + post == pre + (t + post);
      TrimStartPadding(pre, t + post);
      TrimEndPadding(t, post);
    }
  }

  lemma {:induction false} AllWhitespaceTrimStart(s: string)
    requires AllWhitespace(s)
    ensures TrimStart(s) == []
    decreases |s|
  {
    if s != [] {
      AllWhitespaceTrimStart(s[1..]);
    }
  }

  /** Trimming twice is trimming once. */
  lemma TrimIdempotent(s: string)
    ensures Trim(Trim(s)) == Trim(s)
  {
    var t := Trim(s);
    TrimIsTrimmed(s);
    TrimRemovesPadding([], t, []);
    assert [] + t + [] == t;
  }

  // ---------------------------------------------------------------------------------------
  // Validation

  datatype Verdict = NicknameEmpty | NicknameTooLong | Accepted(nickname: string)

  const MaxNicknameLength: nat := 30

  /** The two checks at the head of `saveNickname`. */
  function ValidateNickname(input: string): (v: Verdict)
    ensures v == NicknameEmpty <==> Trim(input) == ""
    ensures v == NicknameTooLong <==> Trim(input) != "" && Utf16Length(Trim(input)) > 30
    ensures v.Accepted? ==> v.nickname == Trim(input)
  {
    var t := Trim(input);
    if t == "" then NicknameEmpty
    else if Utf16Length(t) > MaxNicknameLength then NicknameTooLong
    else Accepted(t)
  }

  /** Whitespace-only input is empty; padding never counts toward the limit. */
  lemma ValidationIgnoresPadding(pre: string, t: string, post: string)
    requires AllWhitespace(pre) && AllWhitespace(post) && Trimmed(t)
    ensures t == [] ==> ValidateNickname(pre + t + post) == NicknameEmpty
    ensures t != [] && Utf16Length(t) <= 30 ==> ValidateNickname(pre + t + post) == Accepted(t)
    ensures Utf16Length(t) > 30 ==> ValidateNickname(pre + t + post) == NicknameTooLong
  {
    TrimRemovesPadding(pre, t, post);
  }

  /** Thirty code units pass, thirty-one do not. */
  lemma LengthBoundary(t: string, c: char)
    requires Trimmed(t) && t != [] && Utf16Length(t) == 30
    requires !IsJsWhitespace(c) && c as int < 0x1_0000
    ensures ValidateNickname(t) == Accepted(t)
    ensures ValidateNickname(t + [c]) == NicknameTooLong
  {
    TrimRemovesPadding([], t, []);
    assert [] + t + [] == t;
    var u := t + [c];
    assert Trimmed(u);
    TrimRemovesPadding([], u, []);
    assert [] + u + [] == u;
    Utf16Append(t, c);
  }

  lemma {:induction false} Utf16Append(t: string, c: char)
    ensures Utf16Length(t + [c]) == Utf16Length(t) + (if c as int >= 0x1_0000 then 2 else 1)
  {
    if t == [] {
      assert t + [c] == [c];
    } else {
      assert (t + [c])[1..] == t[1..] + [c];
      Utf16Append(t[1..], c);
    }
  }

  // ---------------------------------------------------------------------------------------
  // The editor

  const CacheMs: int := 5000

  /** The `userProfiles` document fields this component writes. */
  datatype ProfileDoc = ProfileDoc(nickname: Option<string>, email: string, originalName: string)

  datatype Message = NoMessage | EmptyMessage | TooLongMessage | SuccessMessage | FailedMessage

  datatype EditorState = EditorState(
    nickname: string,             // the input
    currentNickname: string,
    saving: bool,
    message: Message,
    profileCache: Option<string>,
    lastFetch: int,
    profileDoc: Option<ProfileDoc>,
    reported: seq<string>)        // values passed to `onNicknameUpdate`, oldest first

  predicate Succeeds(failAt: Option<nat>, k: nat)
  {
    failAt.None? || k < failAt.value
  }

  predicate CacheFresh(s: EditorState, now: int)
  {
    s.profileCache.Some? && now - s.lastFetch < CacheMs
  }

  /** `loadUserProfile` for `user` at `now`; `readOk` whether the profile read goes through. */
  function Load(s: EditorState, user: User, now: int, readOk: bool): EditorState
  {
    if user.uid == "" then s
    else if CacheFresh(s, now) then
      s.(currentNickname := s.profileCache.value, nickname := s.profileCache.value)
    else if !readOk then
      s.(currentNickname := user.displayName, nickname := user.displayName)
    else
      var name := if s.profileDoc.Some? then OrElse(s.profileDoc.value.nickname, user.displayName)
                  else user.displayName;
      s.(currentNickname := name, nickname := name, profileCache := Some(name), lastFetch := now)
  }

  /** `saveNickname` for `user` at `now`. */
  function Save(s: EditorState, user: User, now: int, failAt: Option<nat>): EditorState
  {
    match ValidateNickname(s.nickname)
    case NicknameEmpty => s.(message := EmptyMessage)
    case NicknameTooLong => s.(message := TooLongMessage)
    case Accepted(t) =>
      if !Succeeds(failAt, 0) then s.(message := FailedMessage, saving := false)
      else
        var written := s.(profileDoc := Some(ProfileDoc(Some(t), user.email, user.displayName)));
        if !Succeeds(failAt, 1) then written.(message := FailedMessage, saving := false)
        else
          written.(currentNickname := t, message := SuccessMessage, profileCache := Some(t),
                   lastFetch := now, reported := s.reported + [t], saving := false)
  }

  /** `disabled={saving || nickname.trim() === currentNickname}`. */
  predicate SaveDisabled(s: EditorState)
  {
    s.saving || Trim(s.nickname) == s.currentNickname
  }

  /** A rejected nickname writes nothing and changes only the message. */
  lemma RejectedSaveWritesNothing(s: EditorState, user: User, now: int, failAt: Option<nat>)
    requires !ValidateNickname(s.nickname).Accepted?
    ensures var r := Save(s, user, now, failAt);
      r == s.(message := r.message)
      && r.message == (if Trim(s.nickname) == "" then EmptyMessage else TooLongMessage)
  {
  }

  /** A save that goes through stores, shows, caches and reports the trimmed value. */
  lemma SaveStoresTrimmed(s: EditorState, user: User, now: int)
    requires ValidateNickname(s.nickname).Accepted?
    ensures var r := Save(s, user, now, None); var t := Trim(s.nickname);
      && r.profileDoc == Some(ProfileDoc(Some(t), user.email, user.displayName))
      && r.currentNickname == t && r.profileCache == Some(t) && r.lastFetch == now
      && r.reported == s.reported + [t] && r.message == SuccessMessage && !r.saving
      && r.nickname == s.nickname
  {
  }

  /** After a successful save the button stays disabled until the input is edited. */
  lemma SavedNicknameDisablesSave(s: EditorState, user: User, now: int)
    requires ValidateNickname(s.nickname).Accepted?
    ensures SaveDisabled(Save(s, user, now, None))
  {
  }

  /** A failed write or read-back leaves the shown nickname, the cache and the callback alone. */
  lemma FailedSaveKeepsLocalState(s: EditorState, user: User, now: int, k: nat)
    requires ValidateNickname(s.nickname).Accepted? && k <= 1
    ensures var r := Save(s, user, now, Some(k));
      && r.currentNickname == s.currentNickname && r.profileCache == s.profileCache
      && r.lastFetch == s.lastFetch && r.reported == s.reported && r.message == FailedMessage
  {
  }

  /** Within 5000 ms of a load or save the cached nickname is served without a read. */
  lemma FreshCacheIgnoresStore(s: EditorState, user: User, now: int, r1: bool, r2: bool)
    requires user.uid != "" && CacheFresh(s, now)
    ensures Load(s, user, now, r1) == Load(s, user, now, r2)
    ensures Load(s, user, now, r1).currentNickname == s.profileCache.value
  {
  }

  /** A profile read that fails shows the account name and does not touch the cache. */
  lemma LoadErrorNotCached(s: EditorState, user: User, now: int)
    requires user.uid != "" && !CacheFresh(s, now)
    ensures var r := Load(s, user, now, false);
      r.currentNickname == user.displayName && r.profileCache == s.profileCache
      && r.lastFetch == s.lastFetch
  {
  }

  /**
   * Save then load round-trips: right after, from the cache; once it has expired, from the
   * stored document, whose nickname is the non-empty trimmed value.
   */
  lemma SaveThenLoad(s: EditorState, user: User, saveAt: int, loadAt: int)
    requires user.uid != "" && ValidateNickname(s.nickname).Accepted? && saveAt <= loadAt
    ensures var saved := Save(s, user, saveAt, None);
      && (loadAt - saveAt < CacheMs ==>
            Load(saved, user, loadAt, false).currentNickname == Trim(s.nickname))
      && Load(saved, user, loadAt, true).currentNickname == Trim(s.nickname)
  {
  }

  /** The editor's state for the signed-in `user`. */
  class ProfileEditor {
    const user: User
    var nickname: string
    var currentNickname: string
    var saving: bool
    var message: Message
    var profileCache: Option<string>
    var lastFetch: int
    var profileDoc: Option<ProfileDoc>
    var reported: seq<string>

    function State(): EditorState
      reads this
    {
      EditorState(nickname, currentNickname, saving, message, profileCache, lastFetch,
                  profileDoc, reported)
    }

    constructor (user: User, profileDoc: Option<ProfileDoc>)
      ensures this.user == user
      ensures State() == EditorState("", "", false, NoMessage, None, 0, profileDoc, [])
    {
      this.user := user;
      nickname := "";
      currentNickname := "";
      saving := false;
      message := NoMessage;
      profileCache := None;
      lastFetch := 0;
      this.profileDoc := profileDoc;
      reported := [];
    }

    /** The input's `onChange`. */
    method SetInput(value: string)
      modifies this
      ensures State() == old(State()).(nickname := value)
    {
      nickname := value;
    }

    /** `resetToOriginal`: the input goes back to the account name. */
    method ResetToOriginal()
      modifies this
      ensures State() == old(State()).(nickname := user.displayName)
    {
      nickname := user.displayName;
    }

    /** `loadUserProfile`, step by step; returns whether the store was read. */
    method LoadUserProfile(now: int, readOk: bool) returns (looked: bool)
      modifies this
      ensures State() == Load(old(State()), user, now, readOk)
      ensures looked <==> user.uid != "" && !CacheFresh(old(State()), now)
    {
      looked := false;
      if user.uid == "" {
        return;
      }
      if profileCache.Some? && now - lastFetch < CacheMs {
        currentNickname := profileCache.value;
        nickname := profileCache.value;
        return;
      }
      looked := true;
      if !readOk {
        currentNickname := user.displayName;
        nickname := user.displayName;
        return;
      }
      var name := user.displayName;
      if profileDoc.Some? {
        name := OrElse(profileDoc.value.nickname, user.displayName);
      }
      currentNickname := name;
      nickname := name;
      profileCache := Some(name);
      lastFetch := now;
    }

    /** `saveNickname`, step by step. */
    method SaveNickname(now: int, failAt: Option<nat>)
      modifies this
      ensures State() == Save(old(State()), user, now, failAt)
    {
      var verdict := ValidateNickname(nickname);
      if verdict == NicknameEmpty {
        message := EmptyMessage;
        return;
      }
      if verdict == NicknameTooLong {
        message := TooLongMessage;
        return;
      }
      var t := verdict.nickname;
      saving := true;
      message := NoMessage;
      if !Succeeds(failAt, 0) {
        message := FailedMessage;
        saving := false;
        return;
      }
      profileDoc := Some(ProfileDoc(Some(t), user.email, user.displayName));
      if !Succeeds(failAt, 1) {
        message := FailedMessage;
        saving := false;
        return;
      }
      currentNickname := t;
      message := SuccessMessage;
      profileCache := Some(t);
      lastFetch := now;
      reported := reported + [t];
      saving := false;
    }
  }
}
