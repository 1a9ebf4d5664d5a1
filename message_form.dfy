/** The message composer of src/components/Messages/MessageForm.js: the draft,
    the shortcode-to-emoji substitution, the message record it writes, the
    send and typing-marker rules, the storage path of an uploaded image and the
    upload state. Every backend call is a returned write request or a callback
    method; the emoji table is a parameter. */
module MessageForm {
  import opened Common
  import opened Entities

  // ---------------------------------------------------------------------
  // Shortcodes: the pattern /:[A-Za-z0-9_+-]+:/g and colonToUnicode
  // ---------------------------------------------------------------------

  /** A character of the class [A-Za-z0-9_+-]. */
  predicate IsShortcodeChar(c: char)
  {
    ('A' <= c <= 'Z') || ('a' <= c <= 'z') || ('0' <= c <= '9') || c == '_' || c == '+' || c == '-'
  }

  /** A shortcode name: one or more characters of the class. */
  predicate IsShortcodeName(name: string)
  {
    |name| >= 1 && forall i :: 0 <= i < |name| ==> IsShortcodeChar(name[i])
  }

  /** The length of the longest prefix of `s` made of class characters. */
  function RunLength(s: string): (n: nat)
    ensures n <= |s|
    ensures forall i :: 0 <= i < n ==> IsShortcodeChar(s[i])
    ensures n < |s| ==> !IsShortcodeChar(s[n])
    decreases |s|
  {
    if s != [] && IsShortcodeChar(s[0]) then 1 + RunLength(s[1..]) else 0
  }

  /** The length of the name when the pattern matches at the start of `s`.
      ':' is not in the class, so the greedy run of class characters cannot
      give back a ':' on backtracking: a match is a colon, the whole run, and a colon. */
  function ShortcodeAt(s: string): (r: Option<nat>)
    ensures r.Some? ==> 2 + r.value <= |s| && s[0] == ':' && s[1 + r.value] == ':' && IsShortcodeName(s[1..1 + r.value])
  {
    if |s| >= 3 && s[0] == ':' then
      var n := RunLength(s[1..]);
      if n >= 1 && 1 + n < |s| && s[1 + n] == ':' then Some(n) else None
    else None
  }

  /** The input split the way a global `replace` walks it: a match is a piece
      of its own and scanning resumes after it; elsewhere one character at a time. */
  datatype Piece = Lit(c: char) | Code(name: string)

  function Tokenize(s: string): (r: seq<Piece>)
    ensures forall p :: p in r && p.Code? ==> IsShortcodeName(p.name)
    decreases |s|
  {
    if s == [] then []
    else match ShortcodeAt(s)
      case Some(n) => [Code(s[1..1 + n])] + Tokenize(s[n + 2..])
      case None => [Lit(s[0])] + Tokenize(s[1..])
  }

  /** How a piece is written in the input. */
  function Spell(p: Piece): string
  {
    match p
    case Lit(c) => [c]
    case Code(name) => ":" + name + ":"
  }

  function Untokenize(ps: seq<Piece>): string
    decreases |ps|
  {
    if ps == [] then "" else Spell(ps[0]) + Untokenize(ps[1..])
  }

  /** Tokenizing loses nothing: spelling the pieces gives the input back. */
  lemma {:induction false} TokenizeRoundTrip(s: string)
    ensures Untokenize(Tokenize(s)) == s
    decreases |s|
  {
    if s != [] {
      var p, rest := TokenizeStep(s);
      TokenizeRoundTrip(rest);
      UntokenizeCons(p, Tokenize(rest));
    }
  }

  /** The scan takes one piece off the front of a non-empty input: the input is
      that piece's spelling followed by the rest, and the rest is scanned on its own. */
  lemma TokenizeStep(s: string) returns (p: Piece, rest: string)
    requires s != []
    ensures Tokenize(s) == [p] + Tokenize(rest)
    ensures s == Spell(p) + rest && |rest| < |s|
    ensures s[0] != ':' ==> p == Lit(s[0]) && rest == s[1..]
  {
    match ShortcodeAt(s)
    case Some(n) =>
      p, rest := Code(s[1..1 + n]), s[n + 2..];
      MatchSpelling(s, n);
    case None =>
      p, rest := Lit(s[0]), s[1..];
      assert s == [s[0]] + s[1..];
  }

  /** A match spells its name between the colons it was found with. */
  lemma MatchSpelling(s: string, n: nat)
    requires ShortcodeAt(s) == Some(n)
    ensures s == Spell(Code(s[1..1 + n])) + s[n + 2..]
  {
    var t := Spell(Code(s[1..1 + n])) + s[n + 2..];
    assert |t| == |s|;
    forall i | 0 <= i < |s| ensures t[i] == s[i] {
      if 0 < i < n + 1 {
        assert t[i] == s[1..1 + n][i - 1];
      } else if n + 2 <= i {
        assert t[i] == s[n + 2..][i - n - 2];
      }
    }
  }

  lemma UntokenizeCons(p: Piece, ps: seq<Piece>)
    ensures Untokenize([p] + ps) == Spell(p) + Untokenize(ps)
  {
    assert ([p] + ps)[1..] == ps;
  }

  /** The entry of the emoji table for a name: `native` may be missing. */
  datatype Emoji = Emoji(native: Option<string>)

  /** The replacement of one match: the native character when the table has
      one, otherwise the name put back between its colons. */
  function Replacement(table: map<string, Emoji>, name: string): (r: string)
    ensures Known(table, name) ==> r == table[name].native.value
    ensures !Known(table, name) ==> r == ":" + name + ":"
  {
    if name in table && table[name].native.Some? then table[name].native.value
    else ":" + name + ":"
  }

  /** What one piece becomes: a plain character is copied, a match replaced. */
  function PieceText(table: map<string, Emoji>, p: Piece): string
  {
    match p
    case Lit(c) => [c]
    case Code(name) => Replacement(table, name)
  }

  function Render(table: map<string, Emoji>, ps: seq<Piece>): string
    decreases |ps|
  {
    if ps == [] then "" else PieceText(table, ps[0]) + Render(table, ps[1..])
  }

  /** colonToUnicode: every match is replaced, the rest is copied. Unknown
      shortcodes come back unchanged, colons included, so a text whose
      shortcodes are all unknown to the table is returned as it is. */
  function ColonToUnicode(table: map<string, Emoji>, message: string): (r: string)
    ensures (forall p :: p in Tokenize(message) && p.Code? ==> !Known(table, p.name)) ==> r == message
  {
    RenderUnknown(table, Tokenize(message));
    TokenizeRoundTrip(message);
    Render(table, Tokenize(message))
  }

  /** The name has a native character in the table. */
  predicate Known(table: map<string, Emoji>, name: string)
  {
    name in table && table[name].native.Some?
  }

  lemma {:induction false} RenderUnknown(table: map<string, Emoji>, ps: seq<Piece>)
    ensures (forall p :: p in ps && p.Code? ==> !Known(table, p.name)) ==> Render(table, ps) == Untokenize(ps)
    decreases |ps|
  {
    if ps != [] {
      RenderUnknown(table, ps[1..]);
    }
  }

  /** A text in which the pattern matches nowhere is returned unchanged. */
  lemma {:induction false} ColonToUnicodeNoMatch(table: map<string, Emoji>, s: string)
    requires forall i :: 0 <= i < |s| ==> ShortcodeAt(s[i..]).None?
    ensures ColonToUnicode(table, s) == s
    decreases |s|
  {
    if s != [] {
      assert s[0..] == s;
      assert forall i :: 0 <= i < |s| - 1 ==> s[1..][i..] == s[i + 1..];
      ColonToUnicodeNoMatch(table, s[1..]);
    }
  }

  /** Text before a shortcode is kept as it is: a colon-free prefix passes through. */
  lemma PlainPrefixPreserved(table: map<string, Emoji>, a: string, s: string)
    requires ':' !in a
    ensures ColonToUnicode(table, a + s) == a + ColonToUnicode(table, s)
  {
    RenderPlainPrefix(table, a, s);
  }

  lemma {:induction false} RenderPlainPrefix(table: map<string, Emoji>, a: string, s: string)
    requires ':' !in a
    ensures Render(table, Tokenize(a + s)) == a + Render(table, Tokenize(s))
    decreases |a|
  {
    if a == [] {
      assert a + s == s;
    } else {
      var t, rest := a + s, a[1..] + s;
      var r := Render(table, Tokenize(s));
      assert Tokenize(t) == [Lit(a[0])] + Tokenize(rest) by {
        assert t[0] == a[0];
        var p, rest' := TokenizeStep(t);
        assert rest' == rest;
      }
      assert Render(table, Tokenize(t)) == [a[0]] + Render(table, Tokenize(rest)) by {
        RenderLitCons(table, a[0], Tokenize(rest));
      }
      assert Render(table, Tokenize(rest)) == a[1..] + r by {
        RenderPlainPrefix(table, a[1..], s);
      }
      assert [a[0]] + (a[1..] + r) == ([a[0]] + a[1..]) + r;
      assert a == [a[0]] + a[1..];
    }
  }

  lemma RenderLitCons(table: map<string, Emoji>, c: char, ps: seq<Piece>)
    ensures Render(table, [Lit(c)] + ps) == [c] + Render(table, ps)
  {
    assert ([Lit(c)] + ps)[1..] == ps;
  }

  /** A position where the pattern does not match copies its character: when no
      colon, class name and colon start the text, the first character is kept as it
      is and the rest is converted on its own. This covers a stray ':'. */
  lemma NoShortcodeHere(table: map<string, Emoji>, s: string)
    requires s != []
    requires forall k :: 1 <= k < |s| - 1 ==> !ShortcodeEndsAt(s, k)
    ensures ColonToUnicode(table, s) == [s[0]] + ColonToUnicode(table, s[1..])
  {
    assert ShortcodeAt(s).Some? ==> ShortcodeEndsAt(s, ShortcodeAt(s).value);
    RenderLitCons(table, s[0], Tokenize(s[1..]));
  }

  /** `s` starts with a colon, a class name and a colon, the closing colon at index k + 1. */
  predicate ShortcodeEndsAt(s: string, k: nat)
    requires k + 1 < |s|
  {
    s[0] == ':' && s[k + 1] == ':' && IsShortcodeName(s[1..k + 1])
  }

  /** A space is never part of a run, so a run followed by a space is the same run. */
  lemma {:induction false} RunLengthBeforeSpace(u: string, v: string)
    ensures RunLength(u + " " + v) == RunLength(u)
    decreases |u|
  {
    if u == [] {
      assert (u + " " + v)[0] == ' ';
    } else {
      assert (u + " " + v)[0] == u[0];
      if IsShortcodeChar(u[0]) {
        assert (u + " " + v)[1..] == u[1..] + " " + v;
        RunLengthBeforeSpace(u[1..], v);
      }
    }
  }

  /** A match cannot run across a space: appending " " and more text does not
      change what matches at the start. */
  lemma ShortcodeAtBeforeSpace(x: string, y: string)
    ensures ShortcodeAt(x + " " + y) == ShortcodeAt(x)
  {
    var t := x + " " + y;
    if x == [] {
      assert t[0] == ' ';
    } else if x[0] == ':' {
      assert t[0] == ':';
      assert t[1..] == x[1..] + " " + y;
      RunLengthBeforeSpace(x[1..], y);
      var n := RunLength(x[1..]);
      if 1 + n < |x| {
        assert t[1 + n] == x[1 + n];
      } else {
        assert t[1 + n] == ' ';
      }
    } else {
      assert t[0] == x[0];
    }
  }

  /** The scan of two texts joined by a space is the scan of each, around the space. */
  lemma {:induction false} TokenizeAroundSpace(a: string, b: string)
    ensures Tokenize(a + " " + b) == Tokenize(a) + ([Lit(' ')] + Tokenize(b))
    decreases |a|
  {
    var t := a + " " + b;
    if a == [] {
      assert t == " " + b;
      var p, rest := TokenizeStep(t);
      assert rest == b;
    } else {
      ShortcodeAtBeforeSpace(a, b);
      match ShortcodeAt(a)
      case Some(n) =>
        assert t[1..1 + n] == a[1..1 + n];
        assert t[n + 2..] == a[n + 2..] + " " + b;
        TokenizeAroundSpace(a[n + 2..], b);
      case None =>
        assert t[1..] == a[1..] + " " + b;
        TokenizeAroundSpace(a[1..], b);
    }
  }

  lemma {:induction false} RenderAppend(table: map<string, Emoji>, ps: seq<Piece>, qs: seq<Piece>)
    ensures Render(table, ps + qs) == Render(table, ps) + Render(table, qs)
    decreases |ps|
  {
    if ps == [] {
      assert ps + qs == qs;
    } else {
      assert (ps + qs)[1..] == ps[1..] + qs;
      RenderAppend(table, ps[1..], qs);
    }
  }

  /** Text on either side of a space is converted independently: no shortcode
      spans the space that joins the draft to a picked emoji. */
  lemma SpaceSeparates(table: map<string, Emoji>, a: string, b: string)
    ensures ColonToUnicode(table, a + " " + b) == ColonToUnicode(table, a) + " " + ColonToUnicode(table, b)
  {
    TokenizeAroundSpace(a, b);
    RenderAppend(table, Tokenize(a), [Lit(' ')] + Tokenize(b));
    RenderLitCons(table, ' ', Tokenize(b));
  }

  /** A shortcode at the start becomes its replacement and the rest is converted on its own. */
  lemma ShortcodeReplaced(table: map<string, Emoji>, name: string, s: string)
    requires IsShortcodeName(name)
    ensures ColonToUnicode(table, ":" + name + ":" + s) == Replacement(table, name) + ColonToUnicode(table, s)
    ensures Known(table, name) ==> ColonToUnicode(table, ":" + name + ":" + s) == table[name].native.value + ColonToUnicode(table, s)
  {
    var t := ":" + name + ":" + s;
    assert t[1..] == name + (":" + s);
    RunLengthOfName(name, ":" + s);
    assert t[1 + |name|] == ':';
    assert ShortcodeAt(t) == Some(|name|);
    assert t[1..1 + |name|] == name && t[|name| + 2..] == s;
  }

  lemma {:induction false} RunLengthOfName(name: string, rest: string)
    requires forall i :: 0 <= i < |name| ==> IsShortcodeChar(name[i])
    requires rest != [] && !IsShortcodeChar(rest[0])
    ensures RunLength(name + rest) == |name|
    decreases |name|
  {
    if name != [] {
      assert (name + rest)[1..] == name[1..] + rest;
      RunLengthOfName(name[1..], rest);
    } else {
      assert name + rest == rest;
    }
  }

  // ---------------------------------------------------------------------
  // Storage path of an uploaded image (getPath and uploadFile)
  // ---------------------------------------------------------------------

  /** getPath: every upload lies under "chat/"; a private channel's uploads
      lie in a folder of their own, named after the channel. */
  function StoragePath(isPrivateChannel: bool, channelId: string): (r: string)
    ensures |r| == if isPrivateChannel then 13 + |channelId| else 11
    ensures r[..5] == "chat/"
    ensures r[6] == 'r' <==> isPrivateChannel
    ensures isPrivateChannel ==> r[..13] == "chat/private/" && r[13..] == channelId
    ensures !isPrivateChannel ==> r == "chat/public"
  {
    if isPrivateChannel then "chat/private/" + channelId else "chat/public"
  }

  /** `${getPath()}/${uuid}.jpg`: the file named after the uuid, in the folder of getPath. */
  function FilePath(isPrivateChannel: bool, channelId: string, uuid: string): (r: string)
    ensures var dir := StoragePath(isPrivateChannel, channelId);
            && |r| == |dir| + |uuid| + 5
            && r[..|dir|] == dir && r[|dir|] == '/'
            && r[|dir| + 1..|dir| + 1 + |uuid|] == uuid && r[|r| - 4..] == ".jpg"
  {
    StoragePath(isPrivateChannel, channelId) + "/" + uuid + ".jpg"
  }

  /** With slash-free uuids (uuidv4 yields hex digits and dashes) two uploads get
      the same path only for the same uuid, in the same kind of channel and,
      for private channels, in the same channel. */
  lemma FilePathInjective(p1: bool, c1: string, u1: string, p2: bool, c2: string, u2: string)
    requires '/' !in u1 && '/' !in u2
    requires FilePath(p1, c1, u1) == FilePath(p2, c2, u2)
    ensures u1 == u2 && p1 == p2
    ensures p1 ==> c1 == c2
  {
    var r := FilePath(p1, c1, u1);
    var d1, d2 := StoragePath(p1, c1), StoragePath(p2, c2);
    // the '/' that ends the folder is the last one in the path
    forall i | |d1| < i < |d1| + 1 + |u1| ensures r[i] != '/' {
      assert r[i] == r[|d1| + 1..|d1| + 1 + |u1|][i - |d1| - 1];
    }
    forall i | |d2| < i < |d2| + 1 + |u2| ensures r[i] != '/' {
      assert r[i] == r[|d2| + 1..|d2| + 1 + |u2|][i - |d2| - 1];
    }
    assert |d1| == |d2|;
    assert d1 == r[..|d1|] == d2;
    assert d1[6] == 'r' <==> p1;
    if p1 {
      assert c1 == d1[13..] == d2[13..] == c2;
    }
  }

  // ---------------------------------------------------------------------
  // The composer's state
  // ---------------------------------------------------------------------

  /** uploadState: "", "uploading", "error", "done". */
  datatype UploadState = NotStarted | Uploading | UploadError | Done

  /** The string the component stores for each upload state; distinct states
      are stored as distinct strings. */
  function UploadStateText(state: UploadState): (t: string)
    ensures t == "" <==> state == NotStarted
    ensures t == "uploading" <==> state == Uploading
    ensures t == "error" <==> state == UploadError
    ensures t == "done" <==> state == Done
  {
    match state
    case NotStarted => ""
    case Uploading => "uploading"
    case UploadError => "error"
    case Done => "done"
  }

  /** The typing-marker write under typing/<channelId>/<uid>. */
  datatype TypingMarker = SetTyping(channelId: string, uid: string, displayName: string) | RemoveTyping(channelId: string, uid: string)

  /** The error pushed when an empty draft is sent. */
  const EmptyDraftError := Error("Add a message")

  lemma EmptyDraftErrorMentionsMessage()
    ensures Contains(EmptyDraftError.message, "message")
  {
    assert OccursAt(EmptyDraftError.message, "message", 6);
  }

  /** errors.some(error => error.message.includes(word)): the case-sensitive
      test of the composer's input class, one error at a time. */
  function SomeErrorContains(errors: seq<Error>, word: string): (r: bool)
    ensures r <==> exists i :: 0 <= i < |errors| && Contains(errors[i].message, word)
    decreases |errors|
  {
    if errors == [] then false
    else Contains(errors[0].message, word) || SomeErrorContains(errors[1..], word)
  }

  class Composer {
    const channel: Channel
    const user: User
    const isPrivateChannel: bool
    var message: string
    var errors: seq<Error>
    var loading: bool
    var uploadState: UploadState
    var uploadTask: Option<string>
    var emojiPicker: bool

    constructor (channel: Channel, user: User, isPrivateChannel: bool)
      ensures this.channel == channel && this.user == user && this.isPrivateChannel == isPrivateChannel
      ensures message == "" && errors == [] && !loading
      ensures uploadState == NotStarted && uploadTask.None? && !emojiPicker
    {
      this.channel := channel;
      this.user := user;
      this.isPrivateChannel := isPrivateChannel;
      message := "";
      errors := [];
      loading := false;
      uploadState := NotStarted;
      uploadTask := None;
      emojiPicker := false;
    }

    /** createMessage: the draft as content, the author copied from the user,
        and the image URL exactly when one is given. */
    function CreateMessage(fileUrl: Option<string>): (m: Message)
      reads this
      ensures m.user.id == user.uid && m.user.name == user.displayName && m.user.avatar == user.photoURL
      ensures m.content == message
      ensures m.image.Some? <==> fileUrl.Some?
      ensures m.image == fileUrl
      ensures m.timestamp == ServerTimestamp
    {
      Message(ServerTimestamp, Author(user.uid, user.displayName, user.photoURL), message, fileUrl)
    }

    /** The class of the draft input: "error" exactly when an error mentions
        "message" (case-sensitively), "" otherwise and without errors. */
    function MessageInputError(): (r: string)
      reads this
      ensures r == "error" <==> exists i :: 0 <= i < |errors| && Contains(errors[i].message, "message")
      ensures r != "error" ==> r == ""
      ensures errors == [] ==> r == ""
    {
      if SomeErrorContains(errors, "message") then "error" else ""
    }

    /** The upload button is disabled while an upload runs: `uploadState === "uploading"`. */
    predicate UploadDisabled()
      reads this
      ensures UploadDisabled() <==> UploadStateText(uploadState) == "uploading"
    {
      uploadState == Uploading
    }

    /** handleChange on the draft. */
    method HandleChange(value: string)
      modifies this`message
      ensures message == value
    {
      message := value;
    }

    /** handleTogglePicker. */
    method HandleTogglePicker()
      modifies this`emojiPicker
      ensures emojiPicker == !old(emojiPicker)
    {
      emojiPicker := !emojiPicker;
    }

    /** handleAddEmoji: append a space and the picked shortcode, convert the
        whole draft, close the picker. */
    method HandleAddEmoji(table: map<string, Emoji>, colons: string)
      modifies this`message, this`emojiPicker
      ensures message == ColonToUnicode(table, old(message) + " " + colons)
      ensures !emojiPicker
    {
      message := ColonToUnicode(table, message + " " + colons);
      emojiPicker := false;
    }

    /** sendMessage: a non-empty draft starts the write and sets `loading`; an
        empty one records "Add a message" and writes nothing. `snapshot` is the
        error list the failure handler will extend (the one read here). */
    method SendMessage() returns (write: Option<Message>, snapshot: seq<Error>)
      modifies this`loading, this`errors
      ensures snapshot == old(errors)
      ensures message != "" ==> write == Some(CreateMessage(None)) && loading && errors == old(errors)
      ensures message == "" ==> write.None? && loading == old(loading) && errors == old(errors) + [EmptyDraftError]
      ensures message == "" ==> MessageInputError() == "error"
    {
      snapshot := errors;
      if message != "" {
        loading := true;
        write := Some(CreateMessage(None));
      } else {
        errors := errors + [EmptyDraftError];
        write := None;
        EmptyDraftErrorMentionsMessage();
        assert Contains(errors[|errors| - 1].message, "message");
      }
    }

    /** The write succeeded: clear the draft and the errors, end loading, drop the typing marker. */
    method OnSendSucceeded() returns (marker: TypingMarker)
      modifies this`loading, this`message, this`errors
      ensures !loading && message == "" && errors == []
      ensures marker == RemoveTyping(channel.id, user.uid)
      ensures MessageInputError() == ""
    {
      loading := false;
      message := "";
      errors := [];
      marker := RemoveTyping(channel.id, user.uid);
    }

    /** The write failed: the error is added to the list read when sending, loading ends. */
    method OnSendFailed(snapshot: seq<Error>, err: Error)
      modifies this`loading, this`errors
      ensures !loading && errors == snapshot + [err]
    {
      loading := false;
      errors := snapshot + [err];
    }

    /** handleKeyDown: Enter (keyCode 13) sends; then the typing marker is set
        while the draft is non-empty and removed when it is empty. */
    method HandleKeyDown(keyCode: int) returns (write: Option<Message>, snapshot: seq<Error>, marker: TypingMarker)
      modifies this`loading, this`errors
      ensures keyCode != 13 ==> write.None? && loading == old(loading) && errors == old(errors)
      ensures keyCode == 13 && message != "" ==> write == Some(CreateMessage(None)) && loading && errors == old(errors)
      ensures keyCode == 13 && message == "" ==> write.None? && loading == old(loading) && errors == old(errors) + [EmptyDraftError]
      ensures snapshot == old(errors)
      ensures marker.SetTyping? <==> message != ""
      ensures marker.channelId == channel.id && marker.uid == user.uid
      ensures marker.SetTyping? ==> marker.displayName == user.displayName
    {
      snapshot := errors;
      write := None;
      if keyCode == 13 {
        write, snapshot := SendMessage();
      }
      if message != "" {
        marker := SetTyping(channel.id, user.uid, user.displayName);
      } else {
        marker := RemoveTyping(channel.id, user.uid);
      }
    }

    /** getPath, on the composer's channel. */
    function GetPath(): (r: string)
      reads this
      ensures isPrivateChannel ==> r == "chat/private/" + channel.id
      ensures !isPrivateChannel ==> r == "chat/public"
    {
      StoragePath(isPrivateChannel, channel.id)
    }

    /** uploadFile: start the upload of `chat/.../<uuid>.jpg`. */
    method UploadFile(uuid: string) returns (filePath: string)
      modifies this`uploadState, this`uploadTask
      ensures filePath == FilePath(isPrivateChannel, channel.id, uuid)
      ensures isPrivateChannel ==> filePath == "chat/private/" + channel.id + "/" + uuid + ".jpg"
      ensures !isPrivateChannel ==> filePath == "chat/public/" + uuid + ".jpg"
      ensures uploadState == Uploading && uploadTask == Some(filePath) && UploadDisabled()
    {
      filePath := GetPath() + "/" + uuid + ".jpg";
      uploadState := Uploading;
      uploadTask := Some(filePath);
    }

    /** The upload, or the download-URL request after it, failed. */
    method OnUploadFailed(err: Error)
      modifies this`errors, this`uploadState, this`uploadTask
      ensures errors == old(errors) + [err]
      ensures uploadState == UploadError && uploadTask.None? && !UploadDisabled()
    {
      errors := errors + [err];
      uploadState := UploadError;
      uploadTask := None;
    }

    /** sendFileMessage: the image message written under the channel. */
    method SendFileMessage(fileUrl: string) returns (write: Message)
      ensures write == CreateMessage(Some(fileUrl))
      ensures write.image == Some(fileUrl) && write.content == message
    {
      write := CreateMessage(Some(fileUrl));
    }

    /** The image message was written. */
    method OnFileMessageSent()
      modifies this`uploadState
      ensures uploadState == Done && !UploadDisabled()
    {
      uploadState := Done;
    }

    /** Writing the image message failed: only the error is recorded, so an
        upload that got this far stays "uploading" and its button disabled. */
    method OnFileMessageFailed(err: Error)
      modifies this`errors
      ensures errors == old(errors) + [err]
      ensures uploadState == old(uploadState) && (old(UploadDisabled()) ==> UploadDisabled())
    {
      errors := errors + [err];
    }

    /** componentWillUnmount: cancel a running upload task. */
    method ComponentWillUnmount() returns (cancelled: Option<string>)
      modifies this`uploadTask
      ensures cancelled == old(uploadTask) && uploadTask.None?
    {
      cancelled := uploadTask;
      if uploadTask.Some? {
        uploadTask := None;
      }
    }
  }

  /** Picking a known emoji converts the draft on its own and appends a space and
      the emoji's native character; a colon-free draft is kept as it is. */
  lemma AddEmojiAppendsNative(table: map<string, Emoji>, draft: string, name: string)
    requires IsShortcodeName(name) && Known(table, name)
    ensures ColonToUnicode(table, draft + " " + (":" + name + ":")) == ColonToUnicode(table, draft) + " " + table[name].native.value
    ensures ':' !in draft ==> ColonToUnicode(table, draft + " " + (":" + name + ":")) == draft + " " + table[name].native.value
  {
    var colons := ":" + name + ":";
    SpaceSeparates(table, draft, colons);
    assert colons == colons + "";
    ShortcodeReplaced(table, name, "");
    assert ColonToUnicode(table, "") == "";
    if ':' !in draft {
      assert draft + "" == draft;
      PlainPrefixPreserved(table, draft, "");
    }
  }
}
