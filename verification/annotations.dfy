// The `state-proxy.io/services` annotation: items separated by ',', fields by ':'
// (src/kubernetes/mod.rs, discover_services, send_service_from_string and parse_port).
module Annotations {
  import opened Wrappers
  import opened Endpoints

  /** Why a discovery task gives up. The first two are the parser's. */
  datatype Error = InvalidServiceString | NotAPort(text: string) | BadAddress(text: string) | ChannelClosed

  /** One item, in the order the code reads it: port before protocol. */
  datatype ServiceSpec = ServiceSpec(
    externalPort: Port,
    externalProtocol: string,
    backendPort: Port,
    backendProtocol: string)

  // ---- str::split ---------------------------------------------------------------------------

  /** The pieces between separators; the empty string has one empty piece. */
  function Split(s: string, sep: char): (parts: seq<string>)
    ensures parts != []
  {
    if s == "" then [""] else
    var rest := Split(s[1..], sep);
    if s[0] == sep then [""] + rest else [[s[0]] + rest[0]] + rest[1..]
  }

  function Join(parts: seq<string>, sep: char): string
    requires parts != []
  {
    if |parts| == 1 then parts[0] else parts[0] + [sep] + Join(parts[1..], sep)
  }

  lemma {:induction false} SplitConcat(a: string, b: string, sep: char)
    ensures Split(a + [sep] + b, sep) == Split(a, sep) + Split(b, sep)
  {
    if a == "" {
      assert (a + [sep] + b)[1..] == b;
    } else {
      assert (a + [sep] + b)[1..] == a[1..] + [sep] + b;
      SplitConcat(a[1..], b, sep);
    }
  }

  lemma {:induction false} SplitWhole(a: string, sep: char)
    requires sep !in a
    ensures Split(a, sep) == [a]
  {
    if a != "" {
      SplitWhole(a[1..], sep);
      assert [a[0]] + a[1..] == a;
    }
  }

  lemma {:induction false} SplitJoin(parts: seq<string>, sep: char)
    requires parts != [] && forall i | 0 <= i < |parts| :: sep !in parts[i]
    ensures Split(Join(parts, sep), sep) == parts
  {
    SplitWhole(parts[0], sep);
    if |parts| > 1 {
      SplitConcat(parts[0], Join(parts[1..], sep), sep);
      SplitJoin(parts[1..], sep);
    }
  }

  lemma {:induction false} JoinAvoids(parts: seq<string>, sep: char, c: char)
    requires parts != [] && c != sep && forall i | 0 <= i < |parts| :: c !in parts[i]
    ensures c !in Join(parts, sep)
  {
    if |parts| > 1 {
      JoinAvoids(parts[1..], sep, c);
    }
  }

  /** Splitting loses nothing, and no piece holds a separator. */
  lemma {:induction false} JoinSplit(s: string, sep: char)
    ensures Join(Split(s, sep), sep) == s
    ensures forall i | 0 <= i < |Split(s, sep)| :: sep !in Split(s, sep)[i]
  {
    if s != "" {
      JoinSplit(s[1..], sep);
    }
  }

  // ---- parse_port ---------------------------------------------------------------------------

  predicate IsDigit(c: char) {
    '0' <= c <= '9'
  }

  predicate AllDigits(s: string) {
    forall i | 0 <= i < |s| :: IsDigit(s[i])
  }

  function DigitValue(c: char): (d: nat)
    requires IsDigit(c)
    ensures d < 10
  {
    (c - '0') as int
  }

  /** The number a decimal numeral denotes. */
  function Value(s: string): nat
    requires AllDigits(s)
  {
    if s == "" then 0 else 10 * Value(s[..|s| - 1]) + DigitValue(s[|s| - 1])
  }

  /** 16-bit accumulation that stops at the first overflow or foreign character. */
  function ParseDigits(s: string, acc: Port): Option<Port> {
    if s == "" then Some(acc)
    else if !IsDigit(s[0]) then None
    else if acc * 10 >= 0x1_0000 then None
    else if acc * 10 + DigitValue(s[0]) >= 0x1_0000 then None
    else ParseDigits(s[1..], acc * 10 + DigitValue(s[0]))
  }

  /** What is left to read once the optional plus sign is gone. */
  function Numeral(s: string): string {
    if s != "" && s[0] == '+' then s[1..] else s
  }

  /** `u16::from_str`: an optional plus sign, then at least one digit. */
  function ParsePort(s: string): Option<Port> {
    if Numeral(s) == "" then None else ParseDigits(Numeral(s), 0)
  }

  lemma {:induction false} ValueGrows(pre: string, suf: string)
    requires AllDigits(pre) && AllDigits(suf)
    ensures AllDigits(pre + suf) && Value(pre + suf) >= Value(pre)
  {
    if suf == "" {
      assert pre + suf == pre;
    } else {
      var n := |suf| - 1;
      ValueGrows(pre, suf[..n]);
      assert (pre + suf)[..|pre + suf| - 1] == pre + suf[..n];
    }
  }

  lemma {:induction false} ParseDigitsExact(pre: string, suf: string)
    requires AllDigits(pre) && Value(pre) < 0x1_0000
    ensures ParseDigits(suf, Value(pre)) ==
            if AllDigits(pre + suf) && Value(pre + suf) < 0x1_0000 then Some(Value(pre + suf)) else None
    decreases |suf|
  {
    if suf == "" {
      assert pre + suf == pre;
    } else if !IsDigit(suf[0]) {
      assert (pre + suf)[|pre|] == suf[0];
    } else {
      var longer := pre + [suf[0]];
      assert longer[..|longer| - 1] == pre;
      assert longer + suf[1..] == pre + suf;
      if Value(longer) < 0x1_0000 {
        ParseDigitsExact(longer, suf[1..]);
      } else if AllDigits(pre + suf) {
        assert AllDigits(suf[1..]) by {
          forall i | 0 <= i < |suf[1..]|
            ensures IsDigit(suf[1..][i])
          {
            assert suf[1..][i] == (pre + suf)[|pre| + 1 + i];
          }
        }
        ValueGrows(longer, suf[1..]);
      }
    }
  }

  /** A port is accepted iff it is a non-empty decimal numeral, with or without a plus sign, of
      value at most 65535, and then it is that value; leading zeros do not matter. */
  lemma PortAcceptedIff(s: string)
    ensures ParsePort(s).Some? <==> Numeral(s) != "" && AllDigits(Numeral(s)) && Value(Numeral(s)) <= 65535
    ensures ParsePort(s).Some? ==> ParsePort(s).value == Value(Numeral(s))
  {
    ParseDigitsExact("", Numeral(s));
    assert "" + Numeral(s) == Numeral(s);
  }

  predicate IsNumeral(s: string, n: nat) {
    s != "" && (forall i | 0 <= i < |s| :: '0' <= s[i] <= '9') && Value(s) == n
  }

  /** `s`, or what follows one leading plus sign, is a non-empty string of digits of value n. */
  predicate Denotes(s: string, n: nat) {
    IsNumeral(s, n) || (s != "" && s[0] == '+' && IsNumeral(s[1..], n))
  }

  /** A string is read as port n iff it denotes n and n has 16 bits. */
  lemma PortReadIff(s: string, n: nat)
    ensures ParsePort(s).Some? && ParsePort(s).value == n <==> Denotes(s, n) && n <= 65535
  {
    PortAcceptedIff(s);
    if s != "" && s[0] == '+' {
      assert !IsDigit(s[0]);
    }
  }

  /** Nothing else may stand before the digits or among them. */
  lemma StrayCharacterIsRefused(s: string, i: nat)
    requires i < |s| && !('0' <= s[i] <= '9') && (s[i] != '+' || i > 0)
    ensures ParsePort(s) == None
  {
    assert i > 0 ==> s[1..][i - 1] == s[i];
    if ParsePort(s).Some? { PortReadIff(s, ParsePort(s).value); }
  }

  lemma PortExamples()
    ensures ParsePort("+80") == Some(80) && ParsePort("65535") == Some(65535) && ParsePort("65536") == None
  {
    assert "+80"[1..] == "80" && "80"[1..] == "0" && "0"[1..] == "";
    assert "65535"[1..] == "5535" && "5535"[1..] == "535" && "535"[1..] == "35" && "35"[1..] == "5" && "5"[1..] == "";
    assert "65536"[1..] == "5536" && "5536"[1..] == "536" && "536"[1..] == "36" && "36"[1..] == "6";
    assert ParseDigits("80", 0) == ParseDigits("0", 8) == Some(80);
    assert ParseDigits("65535", 0) == ParseDigits("5535", 6) == ParseDigits("535", 65) == ParseDigits("35", 655) == ParseDigits("5", 6553);
    assert ParseDigits("65536", 0) == ParseDigits("5536", 6) == ParseDigits("536", 65) == ParseDigits("36", 655) == ParseDigits("6", 6553);
  }

  lemma NotPortsExamples()
    ensures ParsePort(" 8080") == None && ParsePort("-80") == None && ParsePort("++80") == None
    ensures ParsePort("") == None && ParsePort("+") == None && ParsePort("80 ") == None
  {
    StrayCharacterIsRefused(" 8080", 0);
    StrayCharacterIsRefused("-80", 0);
    StrayCharacterIsRefused("++80", 1);
    StrayCharacterIsRefused("80 ", 2);
  }

  function PrintPort(n: nat): (s: string)
    ensures s != "" && AllDigits(s) && Value(s) == n
  {
    var digit := ('0' as int + n % 10) as char;
    if n < 10 then [digit] else
    var front := PrintPort(n / 10);
    var s := front + [digit];
    assert s[..|s| - 1] == front;
    s
  }

  lemma PrintedPortParses(port: Port)
    ensures ParsePort(PrintPort(port)) == Some(port)
    ensures ',' !in PrintPort(port) && ':' !in PrintPort(port)
  {
    var s := PrintPort(port);
    assert IsDigit(s[0]);
    PortAcceptedIff(s);
  }

  // ---- send_service_from_string -------------------------------------------------------------

  /** The first four fields decide; anything after them is ignored with a warning. */
  function ParseService(item: string): Result<ServiceSpec, Error> {
    var parts := Split(item, ':');
    if |parts| < 4 then Err(InvalidServiceString) else
    match ParsePort(parts[0])
    case None => Err(NotAPort(parts[0]))
    case Some(externalPort) =>
      match ParsePort(parts[2])
      case None => Err(NotAPort(parts[2]))
      case Some(backendPort) => Ok(ServiceSpec(externalPort, parts[1], backendPort, parts[3]))
  }

  /** An item of fields without ':' is a service iff it has at least four and the first and the third
      denote 16-bit ports, and then it is these two with the second and the fourth. */
  lemma ServiceReadIff(fields: seq<string>, spec: ServiceSpec)
    requires fields != [] && forall i | 0 <= i < |fields| :: ':' !in fields[i]
    ensures ParseService(Join(fields, ':')) == Ok(spec) <==>
            && |fields| >= 4 && Denotes(fields[0], spec.externalPort) && Denotes(fields[2], spec.backendPort)
            && spec.externalProtocol == fields[1] && spec.backendProtocol == fields[3]
  {
    SplitJoin(fields, ':');
    if |fields| >= 4 {
      PortReadIff(fields[0], spec.externalPort);
      PortReadIff(fields[2], spec.backendPort);
    }
  }

  /** No 16-bit number is denoted. */
  ghost predicate IsNoPort(s: string) {
    forall n: Port :: !Denotes(s, n)
  }

  lemma NoPortIff(s: string)
    ensures ParsePort(s) == None <==> IsNoPort(s)
  {
    if ParsePort(s).Some? { PortReadIff(s, ParsePort(s).value); }
    forall n: Port | Denotes(s, n)
      ensures ParsePort(s).Some?
    {
      PortReadIff(s, n);
    }
  }

  /** Otherwise it is invalid: for want of fields, or else for the first of the two that is no port. */
  lemma ServiceRefusedIff(fields: seq<string>)
    requires fields != [] && forall i | 0 <= i < |fields| :: ':' !in fields[i]
    ensures ParseService(Join(fields, ':')) == Err(InvalidServiceString) <==> |fields| < 4
    ensures forall text :: ParseService(Join(fields, ':')) == Err(NotAPort(text)) <==>
              && |fields| >= 4
              && ((IsNoPort(fields[0]) && text == fields[0]) || (!IsNoPort(fields[0]) && IsNoPort(fields[2]) && text == fields[2]))
  {
    SplitJoin(fields, ':');
    if |fields| >= 4 {
      NoPortIff(fields[0]);
      NoPortIff(fields[2]);
    }
  }

  function PrintService(spec: ServiceSpec): string {
    Join([PrintPort(spec.externalPort), spec.externalProtocol, PrintPort(spec.backendPort), spec.backendProtocol], ':')
  }

  predicate Printable(spec: ServiceSpec) {
    && ',' !in spec.externalProtocol && ':' !in spec.externalProtocol
    && ',' !in spec.backendProtocol && ':' !in spec.backendProtocol
  }

  lemma PrintedServiceParses(spec: ServiceSpec)
    requires Printable(spec)
    ensures ParseService(PrintService(spec)) == Ok(spec)
    ensures ',' !in PrintService(spec)
  {
    var parts := [PrintPort(spec.externalPort), spec.externalProtocol, PrintPort(spec.backendPort), spec.backendProtocol];
    PrintedPortParses(spec.externalPort);
    PrintedPortParses(spec.backendPort);
    SplitJoin(parts, ':');
    JoinAvoids(parts, ':', ',');
  }

  /** Fields after the fourth change nothing. */
  lemma TrailingFieldsIgnored(item: string, anything: string)
    requires |Split(item, ':')| >= 4
    ensures ParseService(item + ":" + anything) == ParseService(item)
  {
    SplitConcat(item, anything, ':');
  }

  // ---- discover_services --------------------------------------------------------------------

  /** The services of the longest prefix of items that all parse. */
  function ValidPrefix(items: seq<string>): (specs: seq<ServiceSpec>)
    ensures |specs| <= |items|
  {
    if items == [] || ParseService(items[0]).Err? then []
    else [ParseService(items[0]).value] + ValidPrefix(items[1..])
  }

  lemma {:induction false} ValidPrefixIsLongest(items: seq<string>)
    ensures var specs := ValidPrefix(items);
            && (forall i | 0 <= i < |specs| :: ParseService(items[i]) == Ok(specs[i]))
            && (|specs| < |items| ==> ParseService(items[|specs|]).Err?)
  {
    if items != [] && ParseService(items[0]).Ok? {
      ValidPrefixIsLongest(items[1..]);
    }
  }

  /** Each item is a printed service, possibly followed by ':' and anything without a comma. */
  function PrintItems(specs: seq<ServiceSpec>, suffixes: seq<string>): (items: seq<string>)
    requires |specs| == |suffixes|
    ensures |items| == |specs|
  {
    seq(|specs|, i requires 0 <= i < |specs| => PrintService(specs[i]) + suffixes[i])
  }

  predicate IsSuffix(s: string) {
    s == "" || (s[0] == ':' && ',' !in s)
  }

  lemma PrintedItemParses(spec: ServiceSpec, suffix: string)
    requires Printable(spec) && IsSuffix(suffix)
    ensures ParseService(PrintService(spec) + suffix) == Ok(spec)
    ensures ',' !in PrintService(spec) + suffix
  {
    PrintedServiceParses(spec);
    if suffix == "" {
      assert PrintService(spec) + suffix == PrintService(spec);
    } else {
      var printed := PrintService(spec);
      assert printed + suffix == printed + ":" + suffix[1..];
      TrailingFieldsIgnored(printed, suffix[1..]);
    }
  }

  lemma OneValidMore(items: seq<string>, spec: ServiceSpec)
    requires items != [] && ParseService(items[0]) == Ok(spec)
    ensures ValidPrefix(items) == [spec] + ValidPrefix(items[1..])
  {}

  lemma {:induction false} AllValid(items: seq<string>, specs: seq<ServiceSpec>)
    requires |items| == |specs| && forall i | 0 <= i < |items| :: ParseService(items[i]) == Ok(specs[i])
    ensures ValidPrefix(items) == specs
  {
    if items != [] {
      OneValidMore(items, specs[0]);
      AllValid(items[1..], specs[1..]);
      assert specs == [specs[0]] + specs[1..];
    }
  }

  /** Round trip: parsing a printed annotation gives back exactly its services, in order, whatever
      is appended to each item after a ':'. */
  lemma AnnotationRoundTrip(specs: seq<ServiceSpec>, suffixes: seq<string>)
    requires specs != [] && |specs| == |suffixes|
    requires forall i | 0 <= i < |specs| :: Printable(specs[i]) && IsSuffix(suffixes[i])
    ensures var annotation := Join(PrintItems(specs, suffixes), ',');
            |Split(annotation, ',')| == |specs| && ValidPrefix(Split(annotation, ',')) == specs
  {
    var items := PrintItems(specs, suffixes);
    forall i | 0 <= i < |items|
      ensures ',' !in items[i] && ParseService(items[i]) == Ok(specs[i])
    {
      PrintedItemParses(specs[i], suffixes[i]);
    }
    SplitJoin(items, ',');
    AllValid(items, specs);
  }

  /** An empty annotation is one item, and not a valid one. */
  lemma EmptyAnnotationIsInvalid()
    ensures Split("", ',') == [""] && ParseService("") == Err(InvalidServiceString)
  {}
}
