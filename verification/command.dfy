/**
 Parsing of typed commands. Models `StrToCommand`, with `std::stoul` for the number after the
 space; the width of `unsigned long` differs between platforms and is a parameter.
 */
module Commands {
  import opened Bytes
  import opened Options

  datatype Prefix =
    | ServerPing | ClientList | HelloAll | ConnectTo | RequestAccept | RequestDecline | CloseClient
    | Help | Blank

  datatype Command = Command(prefix: Prefix, id: u32)

  const SIMPLE_COMMANDS: map<string, Prefix> :=
    map["Ping" := ServerPing, "Clients" := ClientList, "HelloAll" := HelloAll,
        "Accept" := RequestAccept, "Decline" := RequestDecline, "Help" := Help]

  const COMMANDS_WITH_ID: map<string, Prefix> := map["ConnectTo" := ConnectTo]

  /** The largest `unsigned long`, where it has 32 or 64 bits. */
  predicate UnsignedLongMax(max: nat) {
    max == TWO_32 - 1 || max == TWO_64 - 1
  }

  predicate IsSpace(c: char) {
    c == ' ' || '\t' <= c <= '\r'
  }

  predicate IsDigit(c: char) {
    '0' <= c <= '9'
  }

  function DigitValue(c: char): (d: nat)
    requires IsDigit(c)
    ensures d < 10
  {
    c as nat - '0' as nat
  }

  function SkipSpaces(s: string): string {
    if s != "" && IsSpace(s[0]) then SkipSpaces(s[1..]) else s
  }

  function LeadingDigits(s: string): (ds: string)
    ensures forall i :: 0 <= i < |ds| ==> IsDigit(ds[i])
  {
    if s != "" && IsDigit(s[0]) then [s[0]] + LeadingDigits(s[1..]) else ""
  }

  function Value(ds: string): nat
    requires forall i :: 0 <= i < |ds| ==> IsDigit(ds[i])
  {
    if ds == "" then 0 else 10 * Value(ds[..|ds| - 1]) + DigitValue(ds[|ds| - 1])
  }

  /**
   `std::stoul` in base ten: white space, an optional sign, digits, and anything after them.
   None where it throws; a minus sign negates modulo the range of the type.
   */
  function Stoul(s: string, max: nat): Option<nat> {
    var t := SkipSpaces(s);
    var negative := t != "" && t[0] == '-';
    var signed := t != "" && (t[0] == '-' || t[0] == '+');
    var ds := LeadingDigits(if signed then t[1..] else t);
    if ds == "" || Value(ds) > max then None
    else if negative && Value(ds) > 0 then Some(max + 1 - Value(ds))
    else Some(Value(ds))
  }

  /** `find_first_of(" ")`; None is `npos`. */
  function FirstSpace(s: string): (pos: Option<nat>)
    ensures pos.None? <==> ' ' !in s
    ensures pos.Some? ==> pos.value < |s| && s[pos.value] == ' ' && ' ' !in s[..pos.value]
  {
    if s == "" then None
    else if s[0] == ' ' then Some(0)
    else
      match FirstSpace(s[1..])
      case None => None
      case Some(p) =>
        assert s[..p + 1] == [s[0]] + s[1..][..p];
        Some(p + 1)
  }

  /** Without a space the number is looked for in the whole string, since `npos + 1` is 0. */
  function StrToCommand(s: string, max: nat): Command {
    var pos := FirstSpace(s);
    var prefix := if pos.Some? then s[..pos.value] else s;
    if prefix in SIMPLE_COMMANDS then Command(SIMPLE_COMMANDS[prefix], 0)
    else if prefix in COMMANDS_WITH_ID then
      match Stoul(if pos.Some? then s[pos.value + 1..] else s, max)
      case Some(n) => Command(COMMANDS_WITH_ID[prefix], n % TWO_32)
      case None => Command(Blank, 0)
    else Command(Blank, 0)
  }

  function Decimal(n: nat): string {
    var digit := ['0' + (n % 10) as char];
    if n < 10 then digit else Decimal(n / 10) + digit
  }

  lemma {:induction false} DecimalValue(n: nat)
    ensures Decimal(n) != ""
    ensures forall i :: 0 <= i < |Decimal(n)| ==> IsDigit(Decimal(n)[i])
    ensures Value(Decimal(n)) == n
  {
    var c := '0' + (n % 10) as char;
    assert IsDigit(c) && DigitValue(c) == n % 10;
    if n < 10 {
      assert Decimal(n)[..0] == "";
    } else {
      DecimalValue(n / 10);
      assert Decimal(n)[..|Decimal(n)| - 1] == Decimal(n / 10);
    }
  }

  lemma {:induction false} LeadingDigitsOf(ds: string, rest: string)
    requires forall i :: 0 <= i < |ds| ==> IsDigit(ds[i])
    requires rest == "" || !IsDigit(rest[0])
    ensures LeadingDigits(ds + rest) == ds
  {
    if ds == "" {
      assert ds + rest == rest;
    } else {
      assert (ds + rest)[1..] == ds[1..] + rest;
      LeadingDigitsOf(ds[1..], rest);
    }
  }

  lemma {:induction false} SkipSpacesOf(spaces: string, rest: string)
    requires forall i :: 0 <= i < |spaces| ==> IsSpace(spaces[i])
    requires rest == "" || !IsSpace(rest[0])
    ensures SkipSpaces(spaces + rest) == rest
  {
    if spaces == "" {
      assert spaces + rest == rest;
    } else {
      assert (spaces + rest)[1..] == spaces[1..] + rest;
      SkipSpacesOf(spaces[1..], rest);
    }
  }

  /** Any padding before and anything but a digit after the digits of a number leaves it readable. */
  lemma StoulReads(spaces: string, n: nat, rest: string, max: nat)
    requires forall i :: 0 <= i < |spaces| ==> IsSpace(spaces[i])
    requires rest == "" || !IsDigit(rest[0])
    ensures Stoul(spaces + (Decimal(n) + rest), max) == if n <= max then Some(n) else None
  {
    DecimalValue(n);
    var number := Decimal(n);
    assert (number + rest)[0] == number[0] && IsDigit(number[0]);
    SkipSpacesOf(spaces, number + rest);
    LeadingDigitsOf(number, rest);
    hide SkipSpaces, LeadingDigits, Decimal, Value;
  }

  /** The first word is ConnectTo and a space follows it exactly when the line starts so. */
  lemma FirstWord(s: string)
    ensures "ConnectTo " <= s <==> FirstSpace(s) == Some(9) && s[..9] == "ConnectTo"
  {
    hide FirstSpace;
    var pos := FirstSpace(s);
    var word := "ConnectTo";
    assert word + " " == "ConnectTo ";
    if word + " " <= s {
      assert s[..9] == word && s[9] == ' ';
      assert forall i :: 0 <= i < 9 ==> s[i] == word[i] && word[i] != ' ';
      assert pos.Some? && pos.value == 9;
    }
  }

  lemma NoNumberInName(max: nat)
    ensures Stoul("ConnectTo", max) == None
  {
    assert SkipSpaces("ConnectTo") == "ConnectTo" && LeadingDigits("ConnectTo") == "";
  }

  /** Exactly which lines ask for a connection, and to whom; a line without a space never does. */
  lemma ConnectToIff(s: string, max: nat, id: u32)
    ensures StrToCommand(s, max) == Command(ConnectTo, id) <==>
      "ConnectTo " <= s && Stoul(s[10..], max).Some? && Stoul(s[10..], max).value % TWO_32 == id
  {
    FirstWord(s);
    NoNumberInName(max);
    hide Stoul, FirstSpace;
  }

  /** Command round trip: the line a user types for an id is read back as that id, for every id. */
  lemma CommandRoundTrip(id: u32, max: nat)
    requires UnsignedLongMax(max)
    ensures StrToCommand("ConnectTo " + Decimal(id), max) == Command(ConnectTo, id)
  {
    hide Stoul, StrToCommand, Decimal;
    var s := "ConnectTo " + Decimal(id);
    StoulReads("", id, "", max);
    ConnectToIff(s, max, id);
    assert s[10..] == Decimal(id) == "" + (Decimal(id) + "");
  }

  // ---- Every other line ----

  /** The first word of a line is w. */
  predicate FirstWordIs(s: string, w: string) {
    s == w || w + [' '] <= s
  }

  function WordOf(s: string): string {
    var pos := FirstSpace(s);
    if pos.Some? then s[..pos.value] else s
  }

  lemma FirstWordIff(s: string, w: string)
    requires ' ' !in w
    ensures WordOf(s) == w <==> FirstWordIs(s, w)
  {
    hide FirstSpace;
    var pos := FirstSpace(s);
    if w + [' '] <= s {
      assert s[..|w|] == w && s[|w|] == ' ';
      assert forall i :: 0 <= i < |w| ==> s[i] == w[i] && w[i] in w;
      assert pos.Some? && pos.value == |w|;
    }
    if pos.Some? && s[..pos.value] == w {
      assert s[..|w| + 1] == w + [' '];
    }
  }

  /** The words without an id. */
  predicate SimpleWord(w: string, p: Prefix) {
    || (w == "Ping" && p == ServerPing) || (w == "Clients" && p == ClientList)
    || (w == "HelloAll" && p == HelloAll) || (w == "Accept" && p == RequestAccept)
    || (w == "Decline" && p == RequestDecline) || (w == "Help" && p == Help)
  }

  lemma SimpleLookup(w: string, p: Prefix)
    ensures w in SIMPLE_COMMANDS && SIMPLE_COMMANDS[w] == p <==> SimpleWord(w, p)
  {
  }

  lemma IdLookup(w: string)
    ensures w in COMMANDS_WITH_ID ==> COMMANDS_WITH_ID[w] == ConnectTo
  {
  }

  /** Nothing else makes a simple command, and its word always does, whatever follows. */
  lemma SimpleIff(s: string, max: nat, w: string, p: Prefix)
    requires SimpleWord(w, p)
    ensures StrToCommand(s, max) == Command(p, 0) <==> FirstWordIs(s, w)
  {
    FirstWordIff(s, w);
    SimpleLookup(WordOf(s), p);
    SimpleLookup(w, p);
    IdLookup(WordOf(s));
    OneWordEach(WordOf(s), w, p);
    hide Stoul, FirstSpace, FirstWordIs, SimpleWord;
  }

  lemma OneWordEach(v: string, w: string, p: Prefix)
    ensures SimpleWord(v, p) && SimpleWord(w, p) ==> v == w
    ensures SimpleWord(v, p) ==> p != ConnectTo && p != Blank && p != CloseClient
    ensures SimpleWord(w, p) ==> p != ConnectTo && p != Blank && p != CloseClient
  {
  }

  lemma WordHasNoSpace(s: string)
    ensures ' ' !in WordOf(s)
  {
  }

  /** Every line that is neither of these nor asks for a connection is blank. */
  lemma BlankIff(s: string, max: nat)
    ensures StrToCommand(s, max) == Command(Blank, 0) <==>
      && (forall w, p :: SimpleWord(w, p) ==> !FirstWordIs(s, w))
      && !("ConnectTo " <= s && Stoul(s[10..], max).Some?)
  {
    var word := WordOf(s);
    FirstWord(s);
    NoNumberInName(max);
    WordHasNoSpace(s);
    FirstWordIff(s, word);
    forall w, p | SimpleWord(w, p) ensures FirstWordIs(s, w) ==> word == w && word in SIMPLE_COMMANDS {
      SimpleLookup(w, p);
      FirstWordIff(s, w);
    }
    if word in SIMPLE_COMMANDS {
      SimpleLookup(word, SIMPLE_COMMANDS[word]);
      OneWordEach(word, word, SIMPLE_COMMANDS[word]);
    }
    hide Stoul, FirstSpace, FirstWordIs, SimpleWord;
  }

  /** No typed line at all is the command that closes a conversation. */
  lemma NeverCloses(s: string, max: nat)
    ensures StrToCommand(s, max).prefix != CloseClient
  {
    SimpleLookup(WordOf(s), CloseClient);
    IdLookup(WordOf(s));
    OneWordEach(WordOf(s), WordOf(s), CloseClient);
    hide Stoul, FirstSpace, SimpleWord;
  }

  /** White space in the C locale. */
  const SPACES := " \t\n\r\U{000b}\U{000c}"

  /** What may come between white space and digits. */
  predicate IsSign(sign: string) {
    sign == "" || sign == "+" || sign == "-"
  }

  lemma SpacesAreSkipped(spaces: string, rest: string)
    requires forall i :: 0 <= i < |spaces| ==> spaces[i] in SPACES
    requires rest == "" || rest[0] !in SPACES
    ensures SkipSpaces(spaces + rest) == rest
  {
    assert forall i :: 0 <= i < |spaces| ==> IsSpace(spaces[i]);
    assert rest != "" ==> !IsSpace(rest[0]);
    SkipSpacesOf(spaces, rest);
  }

  /** With or without a sign a number that fits is read, a negative one modulo the range of the type. */
  lemma StoulSigned(spaces: string, sign: string, n: nat, rest: string, max: nat)
    requires (forall i :: 0 <= i < |spaces| ==> spaces[i] in SPACES) && IsSign(sign)
    requires rest == "" || !('0' <= rest[0] <= '9')
    ensures Stoul(spaces + (sign + (Decimal(n) + rest)), max) ==
      if n > max then None else if sign == "-" && n > 0 then Some(max + 1 - n) else Some(n)
  {
    hide SkipSpaces, LeadingDigits, Decimal, Value;
    DecimalValue(n);
    var number := Decimal(n) + rest;
    LeadingDigitsOf(Decimal(n), rest);
    assert number[0] == Decimal(n)[0] && IsDigit(number[0]);
    var signed := sign + number;
    assert signed[0] == if sign == "" then number[0] else sign[0];
    assert signed[0] !in SPACES by { NotSpace(signed[0]); }
    SpacesAreSkipped(spaces, signed);
    assert if sign == "" then signed == number else signed[1..] == number;
  }

  lemma NotSpace(c: char)
    requires IsDigit(c) || c == '+' || c == '-'
    ensures c !in SPACES
  {
  }

  /** Without a digit after white space and a sign there is no number. */
  lemma StoulNeedsDigit(spaces: string, sign: string, rest: string, max: nat)
    requires (forall i :: 0 <= i < |spaces| ==> spaces[i] in SPACES) && IsSign(sign)
    requires rest == "" || !('0' <= rest[0] <= '9')
    requires sign == "" && rest != "" ==> rest[0] !in SPACES && rest[0] != '+' && rest[0] != '-'
    ensures Stoul(spaces + (sign + rest), max) == None
  {
    var tail := sign + rest;
    assert sign == "" ==> tail == rest;
    assert sign != "" ==> tail[0] == sign[0] && tail[1..] == rest;
    SpacesAreSkipped(spaces, tail);
    assert LeadingDigits(rest) == "";
  }
}
