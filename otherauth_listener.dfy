/**
  The text authentication listener: how an identity is labelled, how
  the user picks one of several identities on the controlling terminal,
  how one authentication request runs to its single completion, and
  what the finish call reports.
 */
module OtherauthListener {
  import opened Wrappers
  import opened CLib
  import opened Polkit
  import opened Stdio
  import opened GAsync

  // ---------------------------------------------------------------------
  // Identity labels

  /** The label of a password-database record: the account name alone
      when the GECOS field is NULL, empty or the account name again, and
      "GECOS (name)" otherwise. */
  function AccountLabel(pw: Passwd): (text: string)
    ensures text == pw.name <==>
              pw.gecos == None || pw.gecos == Some("") || pw.gecos == Some(pw.name)
    ensures text != pw.name ==> text == pw.gecos.value + " (" + pw.name + ")"
  {
    if pw.gecos == None || |pw.gecos.value| == 0 || pw.gecos.value == pw.name then pw.name
    else pw.gecos.value + " (" + pw.name + ")"
  }

  /** A human-readable label for an identity that never fails: the
      account label for a unix user whose uid resolves, and the
      authority's generic string (`generic`) for every other identity
      and for a lookup that does not produce a record. */
  function Describe(id: Identity, lookup: Uid -> PwLookup, generic: Identity -> string): (text: string)
    ensures id.UnixUser? && lookup(id.uid).PwFound? ==> text == AccountLabel(lookup(id.uid).entry)
    ensures !id.UnixUser? ==> text == generic(id)
    ensures id.UnixUser? && lookup(id.uid).PwError? ==> text == generic(id)
    ensures id.UnixUser? && lookup(id.uid).PwNoEntry? ==> text == generic(id)
  {
    match id
    case UnixUser(uid) =>
      (match lookup(uid)
       case PwFound(pw) => AccountLabel(pw)
       case _ => generic(id))
    case _ => generic(id)
  }

  /** What the labelling code does as written: a pointer to a label, or a
      dereference of the NULL record pointer. */
  datatype LabelOutcome = Label(text: string) | NullDereference

  /** The labelling code as written: it reads the record through the
      result pointer whenever `getpwuid_r` returns 0, also when that
      pointer is NULL because the uid has no entry. */
  function DescribeAsWritten(id: Identity, lookup: Uid -> PwLookup, generic: Identity -> string): (r: LabelOutcome)
    ensures r == NullDereference <==> id.UnixUser? && lookup(id.uid) == PwNoEntry
    ensures r.Label? ==> r.text == Describe(id, lookup, generic)
  {
    match id
    case UnixUser(uid) =>
      (match lookup(uid)
       case PwError(_) => Label(generic(id))
       case PwNoEntry => NullDereference
       case PwFound(pw) => Label(AccountLabel(pw)))
    case _ => Label(generic(id))
  }

  /** A unix user without a password-database entry: the code as written
      dereferences NULL where the corrected labelling falls back to the
      generic string. */
  lemma DescribeUnknownUser(uid: Uid, lookup: Uid -> PwLookup, generic: Identity -> string)
    requires lookup(uid) == PwNoEntry
    ensures DescribeAsWritten(UnixUser(uid), lookup, generic) == NullDereference
    ensures Describe(UnixUser(uid), lookup, generic) == generic(UnixUser(uid))
  {
  }

  /** The two labels of an account named "alice": an empty GECOS field
      gives the account name, a full name gives "Alice A. (alice)". */
  lemma AliceLabels()
    ensures AccountLabel(Passwd("alice", Some(""))) == "alice"
    ensures AccountLabel(Passwd("alice", Some("Alice A."))) == "Alice A. (alice)"
  {
  }

  // ---------------------------------------------------------------------
  // Choosing an identity

  const MultipleIdentitiesHeader := "Multiple identities can be used for authentication:\n"

  /** One entry of the numbered list; `number` is 1-based. */
  function EntryLine(number: nat, name: string): string {
    " " + Decimal(number) + ".  " + name + "\n"
  }

  function ChoosePrompt(count: nat): string {
    "Choose identity to authenticate as (1-" + Decimal(count) + "): "
  }

  /** The complaint, which echoes the line as a C string. */
  function InvalidResponse(line: seq<char>): string {
    "Invalid response `" + CStr(line) + "'.\n"
  }

  /** The numbered list of identities, in list order. */
  function Listing(ids: seq<Identity>, lookup: Uid -> PwLookup, generic: Identity -> string): (lines: seq<string>)
    ensures |lines| == |ids|
    ensures forall i | 0 <= i < |ids| :: lines[i] == EntryLine(i + 1, Describe(ids[i], lookup, generic))
  {
    if ids == [] then []
    else Listing(ids[..|ids| - 1], lookup, generic) + [EntryLine(|ids|, Describe(ids[|ids| - 1], lookup, generic))]
  }

  /** The identity a typed line selects: the line must be non-empty,
      `strtol` must consume the whole C string it holds, and the value
      must lie in [1, |ids|]; the value is taken unbounded. */
  function Select(ids: seq<Identity>, line: seq<char>): (r: Option<Identity>)
    ensures r.Some? ==> r.value in ids
  {
    var c := CStr(line);
    var scan := Strtol(c);
    if |line| == 0 || scan.end != |c| || scan.value < 1 || scan.value > |ids| then None
    else Some(ids[scan.value - 1])
  }

  /** A line selects an identity exactly when the C string it holds is
      a numeral (white space, an optional sign, digits, nothing after)
      whose value k lies in [1, |ids|]; it then selects the k-th. */
  lemma SelectCharacterization(ids: seq<Identity>, line: seq<char>)
    ensures Select(ids, line).Some? <==>
              IsNumeral(CStr(line)) && 1 <= NumeralValue(CStr(line)) <= |ids|
    ensures Select(ids, line).Some? ==> Select(ids, line).value == ids[NumeralValue(CStr(line)) - 1]
  {
    var c := CStr(line);
    StrtolWhole(c);
    if c == [] {
      assert Strtol(c) == Scan(0, 0);
    }
  }

  /** Typing back the number the listing shows in front of an identity
      selects that identity. */
  lemma SelectsShownNumber(ids: seq<Identity>, i: nat)
    requires i < |ids|
    ensures Select(ids, Decimal(i + 1)) == Some(ids[i])
  {
    var d := Decimal(i + 1);
    StrtolDecimal(i + 1);
    NumeralChars(d);
    CStrWhole(d);
  }

  /** Lines the chooser refuses: the empty line, a line without any
      digit, and a number outside [1, |ids|]. */
  lemma SelectRejects(ids: seq<Identity>, line: seq<char>)
    ensures line == [] ==> Select(ids, line) == None
    ensures (forall i | 0 <= i < |line| :: !IsDigit(line[i])) ==> Select(ids, line) == None
    ensures IsNumeral(line) && (NumeralValue(line) < 1 || NumeralValue(line) > |ids|) ==>
              Select(ids, line) == None
  {
    SelectCharacterization(ids, line);
    var c := CStr(line);
    if IsNumeral(c) {
      NumeralChars(c);
      var i :| 0 <= i < |c| && IsDigit(c[i]);
      assert line[i] == c[i];
    }
    if IsNumeral(line) {
      NumeralChars(line);
      CStrWhole(line);
    }
  }

  /** A number followed by anything that is neither a digit nor a NUL
      byte selects nothing. */
  lemma SelectRejectsTrailing(ids: seq<Identity>, number: seq<char>, x: char, rest: seq<char>)
    requires IsNumeral(number) && !IsDigit(x) && x != '\0'
    ensures Select(ids, number + [x] + rest) == None
  {
    var line := number + [x] + rest;
    NumeralChars(number);
    assert line == (number + [x]) + rest;
    CStrAppend(number + [x], rest);
    assert CStr(line) == number + [x] + CStr(rest);
    NumeralThenNonDigit(number, x, CStr(rest));
    SelectCharacterization(ids, line);
  }

  /** With two identities, typing "2" chooses the second and typing
      "abc" chooses nothing. */
  lemma TwoIdentityResponses(first: Identity, second: Identity)
    ensures Select([first, second], "2") == Some(second)
    ensures Select([first, second], "abc") == None
  {
    SelectsShownNumber([first, second], 1);
    assert Decimal(2) == "2";
    SelectRejects([first, second], "abc");
  }

  const LongMax := 0x7FFF_FFFF_FFFF_FFFF
  const LongMin := -0x8000_0000_0000_0000
  const GuintModulus := 0x1_0000_0000

  /** `strtol` saturates at the range of a 64-bit `long`. */
  function ClampLong(v: int): (r: int)
    ensures LongMin <= r <= LongMax
    ensures LongMin <= v <= LongMax ==> r == v
  {
    if v > LongMax then LongMax else if v < LongMin then LongMin else v
  }

  /** Storing a `long` into a 32-bit `guint` keeps it modulo 2^32. */
  function ToGuint(v: int): (r: nat)
    ensures r < GuintModulus && (r - v) % GuintModulus == 0
  {
    v % GuintModulus
  }

  /** The selection as written: the `strtol` result is stored in a
      32-bit unsigned variable before the range check. */
  function SelectAsWritten(ids: seq<Identity>, line: seq<char>): (r: Option<Identity>)
    ensures r.Some? ==> r.value in ids
    ensures |ids| < GuintModulus && Select(ids, line).Some? ==> r == Select(ids, line)
  {
    var c := CStr(line);
    var scan := Strtol(c);
    var num := ToGuint(ClampLong(scan.value));
    if |line| == 0 || scan.end != |c| || num < 1 || num > |ids| then None
    else Some(ids[num - 1])
  }

  /** The narrowing lets a number through that lies a multiple of 2^32
      away from an index, above it or below it. The chooser only runs
      with two identities or more; with two, the line "4294967298" selects
      the second as written, and "-4294967295" the first, while both
      select nothing once the value is taken unbounded. This needs a
      64-bit `long`: with a 32-bit one, `strtol` saturates and nothing
      outside [1, N] wraps into it. */
  lemma SelectAsWrittenWraps(ids: seq<Identity>, line: seq<char>)
    requires IsNumeral(CStr(line)) && LongMin <= NumeralValue(CStr(line)) <= LongMax
    requires NumeralValue(CStr(line)) < 1 || NumeralValue(CStr(line)) > |ids|
    requires 1 <= NumeralValue(CStr(line)) % GuintModulus <= |ids|
    ensures SelectAsWritten(ids, line) == Some(ids[NumeralValue(CStr(line)) % GuintModulus - 1])
    ensures Select(ids, line) == None
  {
    StrtolWhole(CStr(line));
    SelectCharacterization(ids, line);
  }

  /** The line "4294967298" is a numeral denoting 2^32 + 2. */
  lemma WrapNumeral()
    ensures IsNumeral("4294967298") && NumeralValue("4294967298") == 4294967298
  {
    var s: seq<char> := ['4'];
    assert DigitsValue(s) == 4 by { assert s[..0] == []; }
    DigitsValueSnoc(s, '2');
    s := s + ['2'];
    DigitsValueSnoc(s, '9');
    s := s + ['9'];
    DigitsValueSnoc(s, '4');
    s := s + ['4'];
    DigitsValueSnoc(s, '9');
    s := s + ['9'];
    DigitsValueSnoc(s, '6');
    s := s + ['6'];
    DigitsValueSnoc(s, '7');
    s := s + ['7'];
    DigitsValueSnoc(s, '2');
    s := s + ['2'];
    DigitsValueSnoc(s, '9');
    s := s + ['9'];
    DigitsValueSnoc(s, '8');
    s := s + ['8'];
    assert s == "4294967298";
    assert DigitsValue(s) == 4294967298;
  }

  /** With two identities, "4294967298" selects the second identity as
      written and nothing once the value is taken unbounded. */
  lemma TwoIdentityWrap(first: Identity, second: Identity)
    ensures SelectAsWritten([first, second], "4294967298") == Some(second)
    ensures Select([first, second], "4294967298") == None
  {
    WrapNumeral();
    NumeralChars("4294967298");
    CStrWhole("4294967298");
    SelectAsWrittenWraps([first, second], "4294967298");
  }

  /** What the chooser writes before it reads: the header, the numbered
      list and the prompt naming the number of identities. */
  function ChooserListing(ids: seq<Identity>, lookup: Uid -> PwLookup, generic: Identity -> string): seq<string> {
    [MultipleIdentitiesHeader] + Listing(ids, lookup, generic) + [ChoosePrompt(|ids|)]
  }

  /** What the chooser writes after it reads: the complaint exactly when
      the line selects nothing. */
  function ResponseLines(ids: seq<Identity>, line: seq<char>): seq<string> {
    if Select(ids, line) == None then [InvalidResponse(line)] else []
  }

  /** Everything the chooser writes to the terminal for a typed line. */
  function ChooserTranscript(ids: seq<Identity>, line: seq<char>, lookup: Uid -> PwLookup,
                             generic: Identity -> string): seq<string>
  {
    ChooserListing(ids, lookup, generic) + ResponseLines(ids, line)
  }

  /** The chooser's transcript around the listing: the header first,
      then the numbered entries, then the prompt naming N, and the
      complaint as one more line exactly when the typed line selects
      nothing. */
  lemma ChooserTranscriptShape(ids: seq<Identity>, line: seq<char>, lookup: Uid -> PwLookup,
                               generic: Identity -> string)
    ensures |ChooserTranscript(ids, line, lookup, generic)| == |ids| + 2 + if Select(ids, line) == None then 1 else 0
    ensures ChooserTranscript(ids, line, lookup, generic)[0] == MultipleIdentitiesHeader
    ensures ChooserTranscript(ids, line, lookup, generic)[|ids| + 1] == ChoosePrompt(|ids|)
    ensures Select(ids, line) == None ==> ChooserTranscript(ids, line, lookup, generic)[|ids| + 2] == InvalidResponse(line)
  {
    var t := ChooserTranscript(ids, line, lookup, generic);
    var shown := ChooserListing(ids, lookup, generic);
    assert t == shown + ResponseLines(ids, line);
    assert |shown| == |ids| + 2;
  }

  // ---------------------------------------------------------------------
  // One authentication request

  const BoldRed := "\U{1B}[1;31m"
  const Normal := "\U{1B}[0m"
  const CanceledBanner := "==== AUTHENTICATION CANCELED ===\n"
  const CanceledMessage := "Authentication was canceled."
  /** The prefix `perror` is given when reading standard input fails; the
      `strerror` text it appends is not modelled. */
  const GetlineError := "getline"

  function AuthenticatingLine(actionId: string): string {
    "(not really) AUTHENTICATING: " + actionId + " \n"
  }

  /** The highlighted banner naming the action, then the message. */
  function Banner(actionId: string, message: string): seq<string> {
    [BoldRed, AuthenticatingLine(actionId), Normal, message + "\n"]
  }

  const CanceledLines := [BoldRed, CanceledBanner, Normal]

  function AuthenticatingAs(name: string): string {
    "Authenticating as: " + name + "\n"
  }

  function CookiePrompt(cookie: string): string {
    "COOKIE: " + cookie + "\nPress Return to see if you won the authentication race!\n"
  }

  /** A request is canceled exactly when there is a choice to make and
      the typed line selects nothing. */
  predicate Canceled(ids: seq<Identity>, ttyInput: seq<char>)
    requires |ids| > 1 ==> '\n' in ttyInput
  {
    |ids| > 1 && Select(ids, LineBefore(ttyInput)) == None
  }

  /** A request is canceled exactly when there are several identities and
      the C string of the typed line is not a numeral in [1, N]. */
  lemma CanceledCharacterization(ids: seq<Identity>, ttyInput: seq<char>)
    requires |ids| > 1 ==> '\n' in ttyInput
    ensures Canceled(ids, ttyInput) <==>
              |ids| > 1 &&
              var c := CStr(LineBefore(ttyInput));
              !(IsNumeral(c) && 1 <= NumeralValue(c) <= |ids|)
  {
    if |ids| > 1 {
      SelectCharacterization(ids, LineBefore(ttyInput));
    }
  }

  /** A request offering a single identity is never canceled, whatever
      the terminal holds. */
  lemma SingleIdentityProceeds(id: Identity, ttyInput: seq<char>)
    ensures !Canceled([id], ttyInput)
  {
  }

  /** What settling the identity writes to the terminal: the chooser
      transcript, and the cancel banner when the line selects nothing, or
      the description of the only identity. */
  function IdentityTranscript(ids: seq<Identity>, ttyInput: seq<char>, lookup: Uid -> PwLookup,
                              generic: Identity -> string): seq<string>
    requires |ids| >= 1
    requires |ids| > 1 ==> '\n' in ttyInput
  {
    if |ids| > 1 then
      var line := LineBefore(ttyInput);
      ChooserTranscript(ids, line, lookup, generic) + if Select(ids, line) == None then CanceledLines else []
    else
      [AuthenticatingAs(Describe(ids[0], lookup, generic))]
  }

  /** Everything one request writes to the terminal, given what the
      terminal will deliver: the cookie prompt follows unless the request
      was canceled. */
  function AuthTranscript(actionId: string, message: string, cookie: string, ids: seq<Identity>,
                          ttyInput: seq<char>, lookup: Uid -> PwLookup, generic: Identity -> string): seq<string>
    requires |ids| >= 1
    requires |ids| > 1 ==> '\n' in ttyInput
  {
    Banner(actionId, message) + IdentityTranscript(ids, ttyInput, lookup, generic)
    + if Canceled(ids, ttyInput) then [] else [CookiePrompt(cookie)]
  }

  /** What settling the identity writes, by case: the announcement of the
      only identity; the bare listing after a successful choice; the
      listing, the complaint and the cancel banner after a failed one. */
  lemma IdentityTranscriptShape(ids: seq<Identity>, ttyInput: seq<char>, lookup: Uid -> PwLookup,
                                generic: Identity -> string)
    requires |ids| >= 1
    requires |ids| > 1 ==> '\n' in ttyInput
    ensures |ids| == 1 ==>
              IdentityTranscript(ids, ttyInput, lookup, generic) == [AuthenticatingAs(Describe(ids[0], lookup, generic))]
    ensures |ids| > 1 && !Canceled(ids, ttyInput) ==>
              IdentityTranscript(ids, ttyInput, lookup, generic) == ChooserListing(ids, lookup, generic)
    ensures Canceled(ids, ttyInput) ==>
              IdentityTranscript(ids, ttyInput, lookup, generic)
              == ChooserListing(ids, lookup, generic) + [InvalidResponse(LineBefore(ttyInput))] + CanceledLines
  {
    if |ids| > 1 && !Canceled(ids, ttyInput) {
      assert ChooserTranscript(ids, LineBefore(ttyInput), lookup, generic) + [] == ChooserListing(ids, lookup, generic) + [];
    }
  }

  /** Every request's transcript opens with the banner and message, and
      says more after them. */
  lemma AuthTranscriptOpens(actionId: string, message: string, cookie: string, ids: seq<Identity>,
                            ttyInput: seq<char>, lookup: Uid -> PwLookup, generic: Identity -> string)
    requires |ids| >= 1
    requires |ids| > 1 ==> '\n' in ttyInput
    ensures |AuthTranscript(actionId, message, cookie, ids, ttyInput, lookup, generic)| > 4
    ensures AuthTranscript(actionId, message, cookie, ids, ttyInput, lookup, generic)[..4] == Banner(actionId, message)
  {
  }

  /** A request's transcript ends with the cookie prompt when it
      proceeds, and with the cancel banner when it is canceled. */
  lemma AuthTranscriptCloses(actionId: string, message: string, cookie: string, ids: seq<Identity>,
                             ttyInput: seq<char>, lookup: Uid -> PwLookup, generic: Identity -> string)
    requires |ids| >= 1
    requires |ids| > 1 ==> '\n' in ttyInput
    ensures !Canceled(ids, ttyInput) ==>
              var t := AuthTranscript(actionId, message, cookie, ids, ttyInput, lookup, generic);
              t[|t| - 1] == CookiePrompt(cookie)
    ensures Canceled(ids, ttyInput) ==>
              var t := AuthTranscript(actionId, message, cookie, ids, ttyInput, lookup, generic);
              t[|t| - 3..] == CanceledLines
  {
  }

  /** With a single identity the request writes the banner and message,
      the announcement of that identity and the cookie prompt, and
      nothing else. */
  lemma SingleIdentityTranscript(actionId: string, message: string, cookie: string, ids: seq<Identity>,
                                 ttyInput: seq<char>, lookup: Uid -> PwLookup, generic: Identity -> string)
    requires |ids| == 1
    ensures AuthTranscript(actionId, message, cookie, ids, ttyInput, lookup, generic)
            == Banner(actionId, message) + [AuthenticatingAs(Describe(ids[0], lookup, generic)), CookiePrompt(cookie)]
  {
  }

  lemma AppendAssociative<T>(p: seq<T>, b: seq<T>, c: seq<T>)
    ensures p + (b + c) == p + b + c
  {
  }

  /** The listener, with the controlling terminal it opened. */
  class Listener {
    const tty: Stream

    constructor (tty: Stream)
      ensures this.tty == tty
    {
      this.tty := tty;
    }

    /** Reads characters from the terminal up to the first newline and
        returns those before it; end of file before a newline aborts the
        process, so a newline must be ahead. */
    method ReadResponse() returns (str: seq<char>)
      requires tty.Valid() && '\n' in tty.Remaining()
      modifies tty
      ensures tty.Valid() && tty.input == old(tty.input) && tty.output == old(tty.output)
      ensures str == LineBefore(old(tty.input[tty.pos..]))
      ensures tty.pos == old(tty.pos) + |str| + 1
    {
      ghost var ahead := tty.Remaining();
      str := [];
      while true
        invariant tty.Valid() && tty.input == old(tty.input) && tty.output == old(tty.output)
        invariant tty.pos == old(tty.pos) + |str| && str == ahead[..|str|]
        invariant '\n' !in str && '\n' in tty.Remaining()
        decreases |tty.input| - tty.pos
      {
        var c := tty.GetC();
        if c == Some('\n') {
          assert ahead[|str|] == '\n';
          LineBeforeAt(ahead, |str|);
          break;
        }
        assert tty.Remaining() == old(tty.input)[tty.pos..];
        str := str + [c.value];
      }
    }

    /** Prints the header, the numbered list of identities and the
        prompt, which names the number of identities. */
    method ListIdentities(identities: seq<Identity>, lookup: Uid -> PwLookup, generic: Identity -> string)
      returns (numIdentities: nat)
      requires tty.Valid()
      modifies tty
      ensures tty.Valid() && tty.input == old(tty.input) && tty.pos == old(tty.pos)
      ensures numIdentities == |identities|
      ensures tty.output == old(tty.output) + ChooserListing(identities, lookup, generic)
    {
      tty.Write(MultipleIdentitiesHeader);
      var n := 0;
      while n < |identities|
        invariant n <= |identities|
        invariant tty.Valid() && tty.input == old(tty.input) && tty.pos == old(tty.pos)
        invariant tty.output == old(tty.output) + [MultipleIdentitiesHeader] + Listing(identities[..n], lookup, generic)
      {
        var s := Describe(identities[n], lookup, generic);
        tty.Write(EntryLine(n + 1, s));
        assert identities[..n + 1][..n] == identities[..n];
        n := n + 1;
      }
      assert identities[..n] == identities;
      numIdentities := n;
      tty.Write(ChoosePrompt(numIdentities));
      AppendAssociative(old(tty.output), [MultipleIdentitiesHeader], Listing(identities, lookup, generic));
      AppendAssociative(old(tty.output), [MultipleIdentitiesHeader] + Listing(identities, lookup, generic),
                        [ChoosePrompt(|identities|)]);
    }

    /** Prints the numbered list and the prompt, reads one line from the
        terminal and returns the identity it selects, or `None` after
        complaining. End of file before a newline aborts the process, so
        a newline must be ahead. */
    method ChooseIdentity(identities: seq<Identity>, lookup: Uid -> PwLookup, generic: Identity -> string)
      returns (ret: Option<Identity>)
      requires tty.Valid() && '\n' in tty.Remaining()
      modifies tty
      ensures tty.Valid() && tty.input == old(tty.input)
      ensures var line := LineBefore(old(tty.input[tty.pos..]));
              && tty.pos == old(tty.pos) + |line| + 1
              && ret == Select(identities, line)
              && tty.output == old(tty.output) + ChooserTranscript(identities, line, lookup, generic)
    {
      ghost var ahead := tty.Remaining();
      ghost var start := tty.output;
      var numIdentities := ListIdentities(identities, lookup, generic);
      assert tty.Remaining() == ahead;
      var str := ReadResponse();

      var scan := Strtol(CStr(str));
      var num := scan.value;
      if |str| == 0 || scan.end != |CStr(str)| || num < 1 || num > numIdentities {
        tty.Write(InvalidResponse(str));
        ret := None;
      } else {
        ret := Some(identities[num - 1]);
      }
      AppendAssociative(start, ChooserListing(identities, lookup, generic), ResponseLines(identities, str));
    }

    method PrintBanner(actionId: string, message: string)
      requires tty.Valid()
      modifies tty
      ensures tty.Valid() && tty.input == old(tty.input) && tty.pos == old(tty.pos)
      ensures tty.output == old(tty.output) + Banner(actionId, message)
    {
      tty.Write(BoldRed);
      tty.Write(AuthenticatingLine(actionId));
      tty.Write(Normal);
      tty.Write(message + "\n");
    }

    method PrintCanceled()
      requires tty.Valid()
      modifies tty
      ensures tty.Valid() && tty.input == old(tty.input) && tty.pos == old(tty.pos)
      ensures tty.output == old(tty.output) + CanceledLines
    {
      tty.Write(BoldRed);
      tty.Write(CanceledBanner);
      tty.Write(Normal);
    }

    /** Settles the identity to authenticate as: the user chooses when
        there are several, otherwise the only one is announced. When the
        choice selects nothing, prints the cancel banner and completes the
        result with the cancel error. */
    method SettleIdentity(res: SimpleAsyncResult, identities: seq<Identity>, lookup: Uid -> PwLookup,
                          generic: Identity -> string)
      returns (chosen: bool)
      requires |identities| >= 1
      requires tty.Valid() && (|identities| > 1 ==> '\n' in tty.Remaining())
      requires res.error == None && res.completions == 0
      modifies tty, res
      ensures tty.Valid() && tty.input == old(tty.input)
      ensures chosen == !Canceled(identities, old(tty.input[tty.pos..]))
      ensures tty.pos == old(tty.pos) + if |identities| > 1 then |LineBefore(old(tty.input[tty.pos..]))| + 1 else 0
      ensures tty.output == old(tty.output) + IdentityTranscript(identities, old(tty.input[tty.pos..]), lookup, generic)
      ensures chosen ==> res.error == None && res.completions == 0
      ensures !chosen ==> res.error == Some(CanceledMessage) && res.completions == 1
    {
      if |identities| > 1 {
        ghost var line := LineBefore(tty.Remaining());
        ghost var start := tty.output;
        var identity := ChooseIdentity(identities, lookup, generic);
        chosen := identity != None;
        if identity == None {
          PrintCanceled();
          res.SetError(CanceledMessage);
          res.CompleteInIdle();
          AppendAssociative(start, ChooserTranscript(identities, line, lookup, generic), CanceledLines);
        }
      } else {
        var s := Describe(identities[0], lookup, generic);
        tty.Write(AuthenticatingAs(s));
        chosen := true;
      }
    }

    /** Everything a request says on the terminal: the banner and
        message, the identity, and the cookie prompt unless the request
        was canceled. */
    method Dialogue(res: SimpleAsyncResult, actionId: string, message: string, cookie: string,
                    identities: seq<Identity>, lookup: Uid -> PwLookup, generic: Identity -> string)
      returns (chosen: bool)
      requires |identities| >= 1
      requires tty.Valid() && (|identities| > 1 ==> '\n' in tty.Remaining())
      requires res.error == None && res.completions == 0
      modifies tty, res
      ensures tty.Valid() && tty.input == old(tty.input)
      ensures chosen == !Canceled(identities, old(tty.input[tty.pos..]))
      ensures tty.pos == old(tty.pos) + if |identities| > 1 then |LineBefore(old(tty.input[tty.pos..]))| + 1 else 0
      ensures tty.output == old(tty.output)
                + AuthTranscript(actionId, message, cookie, identities, old(tty.input[tty.pos..]), lookup, generic)
      ensures chosen ==> res.error == None && res.completions == 0
      ensures !chosen ==> res.error == Some(CanceledMessage) && res.completions == 1
    {
      ghost var ahead := tty.Remaining();
      ghost var start := tty.output;
      PrintBanner(actionId, message);
      assert tty.Remaining() == ahead;
      chosen := SettleIdentity(res, identities, lookup, generic);
      ghost var banner := Banner(actionId, message);
      ghost var settled := IdentityTranscript(identities, ahead, lookup, generic);
      AppendAssociative(start, banner, settled);
      if chosen {
        tty.Write(CookiePrompt(cookie));
        AppendAssociative(start, banner + settled, [CookiePrompt(cookie)]);
      }
    }

    /** Runs one authentication request: the dialogue on the terminal,
        then, unless it was canceled, one read of standard input, and
        exactly one completion of the result, with the cancel error when
        the choice selected nothing. */
    method InitiateAuthentication(actionId: string, message: string, cookie: string,
                                  identities: seq<Identity>, lookup: Uid -> PwLookup,
                                  generic: Identity -> string, stdin: Stream, stderr: Stream)
      returns (res: SimpleAsyncResult)
      requires |identities| >= 1
      requires tty.Valid() && stdin.Valid() && stderr.Valid()
      requires tty != stdin && tty != stderr && stdin != stderr
      requires |identities| > 1 ==> '\n' in tty.Remaining()
      modifies tty, stdin, stderr
      ensures fresh(res) && res.sourceTag == InitiateAuthenticationTag
      ensures res.completions == 1
      ensures tty.Valid() && tty.input == old(tty.input)
      ensures tty.output == old(tty.output)
                + AuthTranscript(actionId, message, cookie, identities, old(tty.input[tty.pos..]), lookup, generic)
      ensures tty.pos == old(tty.pos) + if |identities| > 1 then |LineBefore(old(tty.input[tty.pos..]))| + 1 else 0
      ensures stdin.Valid() && stdin.input == old(stdin.input) && stdin.output == old(stdin.output)
      ensures stderr.Valid() && stderr.input == old(stderr.input) && stderr.pos == old(stderr.pos)
      ensures if Canceled(identities, old(tty.input[tty.pos..])) then
                && res.error == Some(CanceledMessage)
                && stdin.pos == old(stdin.pos) && stderr.output == old(stderr.output)
              else
                && res.error == None
                && stdin.pos == old(stdin.pos) + LineLength(old(stdin.input[stdin.pos..]))
                && stderr.output == old(stderr.output) + if old(stdin.input[stdin.pos..]) == [] then [GetlineError] else []
    {
      res := new SimpleAsyncResult(InitiateAuthenticationTag);
      var chosen := Dialogue(res, actionId, message, cookie, identities, lookup, generic);
      if chosen {
        AwaitReturn(stdin, stderr);
        res.CompleteInIdle();
      }
    }
  }

  /** Waits for Return: reads one line of standard input; a failed read
      is only reported on the error stream. */
  method AwaitReturn(stdin: Stream, stderr: Stream)
    requires stdin.Valid() && stderr.Valid() && stdin != stderr
    modifies stdin, stderr
    ensures stdin.Valid() && stdin.input == old(stdin.input) && stdin.output == old(stdin.output)
    ensures stdin.pos == old(stdin.pos) + LineLength(old(stdin.input[stdin.pos..]))
    ensures stderr.Valid() && stderr.input == old(stderr.input) && stderr.pos == old(stderr.pos)
    ensures stderr.output == old(stderr.output) + if old(stdin.input[stdin.pos..]) == [] then [GetlineError] else []
  {
    var r := stdin.GetLine();
    if r < 0 {
      stderr.Write(GetlineError);
    }
  }

  // ---------------------------------------------------------------------
  // Finishing a request

  datatype Outcome = Succeeded | Failed(message: string)

  /** What finish reports: the outcome, and whether it warned that the
      result was not created by this listener. */
  datatype FinishReport = FinishReport(outcome: Outcome, sourceTagWarning: bool)

  /** Succeeds exactly when no error is stored on the result, and
      otherwise fails with that error; a foreign source tag only draws a
      warning. */
  function InitiateAuthenticationFinish(res: SimpleAsyncResult): (r: FinishReport)
    reads res
    ensures r.outcome == Succeeded <==> res.error == None
    ensures r.outcome.Failed? ==> res.error == Some(r.outcome.message)
    ensures r.sourceTagWarning <==> res.sourceTag != InitiateAuthenticationTag
  {
    var outcome := if res.error.Some? then Failed(res.error.value) else Succeeded;
    FinishReport(outcome, res.sourceTag != InitiateAuthenticationTag)
  }
}
