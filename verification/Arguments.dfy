/**
 The command line: an index loop that takes one or two arguments a step. Reading numbers (`stoi`)
 is library code and comes in as a parameter; None is its exception.
 */
module Arguments {
  import opened Wrappers

  type Stoi = string -> Option<int>

  datatype Protocol = Sctp | Tcp | Udp | UdpLite | Dccp | Unix | UnixForked

  datatype Error = BadNumber | EmptyArgument

  datatype Address = Address(addr: string, port: int)

  datatype Config = Config(locals: seq<Address>, remotes: seq<Address>, protocol: Protocol,
                           mtu: int, seg: int, msg: int)

  // ---------------------------------------------------------------- the parser

  function ToLower(s: string): string {
    seq(|s|, i requires 0 <= i < |s| => if 'A' <= s[i] <= 'Z' then (s[i] as int + 32) as char else s[i])
  }

  /** A name that is not in the table gets the enumeration's first value. */
  function GetProtocol(arg: string): Protocol {
    match ToLower(arg)
    case "sctp" => Sctp
    case "tcp" => Tcp
    case "udp" => Udp
    case "udp_lite" => UdpLite
    case "dccp" => Dccp
    case "unix" => Unix
    case "fork" => UnixForked
    case _ => Sctp
  }

  /** The cast to a 16-bit port. */
  function ToPort(n: int): int {
    n % 0x1_0000
  }

  /** How many arguments the step that starts with arg takes. */
  function Stride(arg: string): nat {
    if arg != "" && arg[0] == '-' && arg !in {"-p", "-mtu", "-seg", "-msg"} then 1 else 2
  }

  /** The loop: the last argument is only ever read as the value of the one before it. */
  method ParseArguments(stoi: Stoi, args: seq<string>, protocol: Protocol) returns (r: Result<Config, Error>)
    requires args != []
    ensures r == Evaluate(stoi, Items(args[1..]), protocol)
  {
    var c := Config([], [], protocol, 0, 0, 0);
    var toRemotes := false;
    FoldIsEvaluate(stoi, protocol, Items(args[1..]));
    hide Items, Fold, Evaluate, GetProtocol, ToPort;
    assert |args| == 1 ==> args[1..] == [];
    var i := 1;
    while i < |args| - 1
      invariant 1 <= i <= |args|
      invariant Fold(stoi, Config([], [], protocol, 0, 0, 0), false, Items(args[1..])) ==
                Fold(stoi, c, toRemotes, Items(if i < |args| then args[i..] else []))
    {
      var arg := args[i];
      ghost var start, c0, t0 := i, c, toRemotes;
      LoopStep(stoi, c, toRemotes, args[i..]);
      if arg == "" {
        r := Err(EmptyArgument);
        return;
      } else if arg[0] == '-' {
        if arg == "-p" {
          i := i + 1;
          c := c.(protocol := GetProtocol(args[i]));
        } else if arg == "-r" {
          toRemotes := true;
        } else if arg in {"-mtu", "-seg", "-msg"} {
          i := i + 1;
          var n := stoi(args[i]);
          if n.None? {
            r := Err(BadNumber);
            return;
          }
          c := if arg == "-mtu" then c.(mtu := n.value)
               else if arg == "-seg" then c.(seg := n.value)
               else c.(msg := n.value);
        }
      } else {
        i := i + 1;
        var n := stoi(args[i]);
        if n.None? {
          r := Err(BadNumber);
          return;
        }
        var a := Address(arg, ToPort(n.value));
        c := if toRemotes then c.(remotes := c.remotes + [a]) else c.(locals := c.locals + [a]);
      }
      i := i + 1;
      ghost var item := ItemOf(arg, args[start + 1]);
      assert i == start + Stride(arg) <= |args|;
      assert c == Take(stoi, c0, t0, item) && toRemotes == (t0 || item == BeginRemotes);
      assert args[start..][Stride(arg)..] == if i < |args| then args[i..] else [];
    }
    FoldNothing(stoi, c, toRemotes, if i < |args| then args[i..] else []);
    r := Ok(c);
  }

  // ---------------------------------------------------------------- what a command line says

  datatype Item = SetProtocol(name: string) | SetMtu(n: string) | SetSeg(n: string) | SetMsg(n: string)
                | BeginRemotes | Unknown(flag: string) | AddAddress(addr: string, port: string) | Empty

  /** The arguments cut into items. A last argument on its own is not one. */
  function Items(args: seq<string>): seq<Item>
    decreases |args|
  {
    if |args| <= 1 then []
    else if args[0] == "" then [Empty]
    else [ItemOf(args[0], args[1])] + Items(args[Stride(args[0])..])
  }

  function ItemOf(arg: string, value: string): Item
    requires arg != ""
  {
    if arg[0] != '-' then AddAddress(arg, value)
    else if arg == "-p" then SetProtocol(value)
    else if arg == "-mtu" then SetMtu(value)
    else if arg == "-seg" then SetSeg(value)
    else if arg == "-msg" then SetMsg(value)
    else if arg == "-r" then BeginRemotes
    else Unknown(arg)
  }

  /** The first problem on the command line, if any. */
  function Problem(stoi: Stoi, items: seq<Item>): Option<Error> {
    if items == [] then None
    else if items[0] == Empty then Some(EmptyArgument)
    else if NumberIn(items[0]).Some? && stoi(NumberIn(items[0]).value).None? then Some(BadNumber)
    else Problem(stoi, items[1..])
  }

  function NumberIn(item: Item): Option<string> {
    match item
    case SetMtu(n) => Some(n)
    case SetSeg(n) => Some(n)
    case SetMsg(n) => Some(n)
    case AddAddress(_, port) => Some(port)
    case _ => None
  }

  function Number(stoi: Stoi, n: string): int {
    match stoi(n)
    case Some(v) => v
    case None => 0
  }

  /** The addresses among the items, in order. */
  function Addresses(stoi: Stoi, items: seq<Item>): seq<Address> {
    if items == [] then []
    else
      var rest := Addresses(stoi, items[1..]);
      if items[0].AddAddress? then [Address(items[0].addr, ToPort(Number(stoi, items[0].port)))] + rest else rest
  }

  /** How many items come before the first `-r`. */
  function BeforeRemotes(items: seq<Item>): (n: nat)
    ensures n <= |items|
    ensures forall i :: 0 <= i < n ==> items[i] != BeginRemotes
    ensures n < |items| ==> items[n] == BeginRemotes
  {
    if items == [] || items[0] == BeginRemotes then 0 else 1 + BeforeRemotes(items[1..])
  }

  datatype OptionKind = OProtocol | OMtu | OSeg | OMsg

  function ValueFor(o: OptionKind, item: Item): Option<string> {
    match (o, item)
    case (OProtocol, SetProtocol(s)) => Some(s)
    case (OMtu, SetMtu(s)) => Some(s)
    case (OSeg, SetSeg(s)) => Some(s)
    case (OMsg, SetMsg(s)) => Some(s)
    case _ => None
  }

  /** The last value given for an option. */
  function Last(o: OptionKind, items: seq<Item>): Option<string> {
    if items == [] then None
    else
      var rest := Last(o, items[1..]);
      if rest.Some? then rest else ValueFor(o, items[0])
  }

  function NumberOr(stoi: Stoi, n: Option<string>, default: int): int {
    match n
    case Some(s) => Number(stoi, s)
    case None => default
  }

  function ProtocolOr(n: Option<string>, default: Protocol): Protocol {
    match n
    case Some(s) => GetProtocol(s)
    case None => default
  }

  /** What the items add up to: locals before the first `-r`, remotes after it, and of each option
      the last value. */
  function Meaning(stoi: Stoi, items: seq<Item>, protocol: Protocol): Config {
    var n := BeforeRemotes(items);
    Config(Addresses(stoi, items[..n]), Addresses(stoi, items[n..]), ProtocolOr(Last(OProtocol, items), protocol),
           NumberOr(stoi, Last(OMtu, items), 0), NumberOr(stoi, Last(OSeg, items), 0),
           NumberOr(stoi, Last(OMsg, items), 0))
  }

  function Evaluate(stoi: Stoi, items: seq<Item>, protocol: Protocol): Result<Config, Error> {
    match Problem(stoi, items)
    case Some(e) => Err(e)
    case None => Ok(Meaning(stoi, items, protocol))
  }

  // ---------------------------------------------------------------- the loop means that

  /** What the loop does with the items one after another. */
  function Fold(stoi: Stoi, c: Config, toRemotes: bool, items: seq<Item>): Result<Config, Error>
    decreases |items|
  {
    if items == [] then Ok(c)
    else if items[0] == Empty then Err(EmptyArgument)
    else if NumberIn(items[0]).Some? && stoi(NumberIn(items[0]).value).None? then Err(BadNumber)
    else Fold(stoi, Take(stoi, c, toRemotes, items[0]), toRemotes || items[0] == BeginRemotes, items[1..])
  }

  function Take(stoi: Stoi, c: Config, toRemotes: bool, item: Item): Config {
    match item
    case SetProtocol(s) => c.(protocol := GetProtocol(s))
    case SetMtu(s) => c.(mtu := Number(stoi, s))
    case SetSeg(s) => c.(seg := Number(stoi, s))
    case SetMsg(s) => c.(msg := Number(stoi, s))
    case AddAddress(addr, port) =>
      var a := Address(addr, ToPort(Number(stoi, port)));
      if toRemotes then c.(remotes := c.remotes + [a]) else c.(locals := c.locals + [a])
    case _ => c
  }

  lemma ItemsStep(args: seq<string>)
    requires |args| >= 2
    ensures args[0] == "" ==> Items(args) == [Empty]
    ensures args[0] != "" ==> Items(args) == [ItemOf(args[0], args[1])] + Items(args[Stride(args[0])..])
  {
  }

  lemma FoldStep(stoi: Stoi, c: Config, toRemotes: bool, items: seq<Item>)
    requires items != []
    ensures Fold(stoi, c, toRemotes, items) ==
            if items[0] == Empty then Err(EmptyArgument)
            else if NumberIn(items[0]).Some? && stoi(NumberIn(items[0]).value).None? then Err(BadNumber)
            else Fold(stoi, Take(stoi, c, toRemotes, items[0]), toRemotes || items[0] == BeginRemotes, items[1..])
  {
  }

  /** One round of the loop, seen from the arguments still to come. */
  lemma LoopStep(stoi: Stoi, c: Config, toRemotes: bool, args: seq<string>)
    requires |args| >= 2
    ensures args[0] == "" ==> Fold(stoi, c, toRemotes, Items(args)) == Err(EmptyArgument)
    ensures args[0] != "" ==>
              var item := ItemOf(args[0], args[1]);
              Fold(stoi, c, toRemotes, Items(args)) ==
              if NumberIn(item).Some? && stoi(NumberIn(item).value).None? then Err(BadNumber)
              else Fold(stoi, Take(stoi, c, toRemotes, item), toRemotes || item == BeginRemotes,
                        Items(args[Stride(args[0])..]))
  {
    ItemsStep(args);
    FoldStep(stoi, c, toRemotes, Items(args));
    hide Items, Fold, Take;
    if args[0] != "" {
      var item, rest := ItemOf(args[0], args[1]), Items(args[Stride(args[0])..]);
      assert ([item] + rest)[0] == item && ([item] + rest)[1..] == rest;
    }
  }

  /** What the items from here on add to a configuration. */
  function Extended(stoi: Stoi, c: Config, toRemotes: bool, items: seq<Item>): Config {
    var n := if toRemotes then 0 else BeforeRemotes(items);
    Config(c.locals + Addresses(stoi, items[..n]), c.remotes + Addresses(stoi, items[n..]),
           ProtocolOr(Last(OProtocol, items), c.protocol),
           NumberOr(stoi, Last(OMtu, items), c.mtu), NumberOr(stoi, Last(OSeg, items), c.seg),
           NumberOr(stoi, Last(OMsg, items), c.msg))
  }

  lemma FoldNothing(stoi: Stoi, c: Config, toRemotes: bool, args: seq<string>)
    requires |args| <= 1
    ensures Fold(stoi, c, toRemotes, Items(args)) == Ok(c)
  {
  }

  lemma AddressesStep(stoi: Stoi, items: seq<Item>, n: nat)
    requires 0 < n <= |items|
    ensures Addresses(stoi, items[..n]) ==
            (if items[0].AddAddress? then [Address(items[0].addr, ToPort(Number(stoi, items[0].port)))] else [])
            + Addresses(stoi, items[1..][..n - 1])
  {
    assert items[..n][1..] == items[1..][..n - 1];
  }

  lemma ExtendedLocals(stoi: Stoi, c: Config, items: seq<Item>)
    requires items != [] && items[0] != BeginRemotes
    ensures var later := Extended(stoi, Take(stoi, c, false, items[0]), false, items[1..]);
            && Extended(stoi, c, false, items).locals == later.locals
            && Extended(stoi, c, false, items).remotes == later.remotes
  {
    var n, rest := BeforeRemotes(items), items[1..];
    assert n == 1 + BeforeRemotes(rest);
    AddressesStep(stoi, items, n);
    assert items[n..] == rest[n - 1..];
    hide Last, ProtocolOr, NumberOr, GetProtocol, ToPort, Number, Addresses, BeforeRemotes;
  }

  lemma ExtendedRemotes(stoi: Stoi, c: Config, toRemotes: bool, items: seq<Item>)
    requires items != [] && (toRemotes || items[0] == BeginRemotes)
    ensures var later := Extended(stoi, Take(stoi, c, toRemotes, items[0]), true, items[1..]);
            && Extended(stoi, c, toRemotes, items).locals == later.locals
            && Extended(stoi, c, toRemotes, items).remotes == later.remotes
  {
    assert !toRemotes ==> BeforeRemotes(items) == 0;
    AllAddresses(stoi, items);
    AllOfThem(items);
    AllOfThem(items[1..]);
    hide Last, ProtocolOr, NumberOr, GetProtocol, ToPort, Number, Addresses, BeforeRemotes;
  }

  lemma AllAddresses(stoi: Stoi, items: seq<Item>)
    requires items != []
    ensures Addresses(stoi, []) == []
    ensures Addresses(stoi, items) ==
            (if items[0].AddAddress? then [Address(items[0].addr, ToPort(Number(stoi, items[0].port)))] else [])
            + Addresses(stoi, items[1..])
  {
  }

  lemma AllOfThem(items: seq<Item>)
    ensures items[..0] == [] && items[0..] == items && items[..|items|] == items
  {
  }

  lemma ExtendedStep(stoi: Stoi, c: Config, toRemotes: bool, items: seq<Item>)
    requires items != []
    ensures Extended(stoi, c, toRemotes, items) ==
            Extended(stoi, Take(stoi, c, toRemotes, items[0]), toRemotes || items[0] == BeginRemotes, items[1..])
  {
    if toRemotes || items[0] == BeginRemotes {
      ExtendedRemotes(stoi, c, toRemotes, items);
    } else {
      ExtendedLocals(stoi, c, items);
    }
    hide Addresses, BeforeRemotes, GetProtocol, ToPort, Number;
  }

  lemma {:induction false} FoldIsExtended(stoi: Stoi, c: Config, toRemotes: bool, items: seq<Item>)
    ensures Fold(stoi, c, toRemotes, items) ==
            match Problem(stoi, items)
            case Some(e) => Err(e)
            case None => Ok(Extended(stoi, c, toRemotes, items))
    decreases |items|
  {
    if items == [] {
      ExtendedByNothing(stoi, c, toRemotes);
    } else {
      ExtendedStep(stoi, c, toRemotes, items);
      hide Extended, Take;
      FoldIsExtended(stoi, Take(stoi, c, toRemotes, items[0]), toRemotes || items[0] == BeginRemotes, items[1..]);
    }
  }

  lemma ExtendedByNothing(stoi: Stoi, c: Config, toRemotes: bool)
    ensures Extended(stoi, c, toRemotes, []) == c
  {
    var none: seq<Item> := [];
    assert none[..0] == none && none[0..] == none;
    assert c.locals + [] == c.locals && c.remotes + [] == c.remotes;
  }

  /** Going through the items in order gives what they add up to. */
  lemma FoldIsEvaluate(stoi: Stoi, protocol: Protocol, items: seq<Item>)
    ensures Fold(stoi, Config([], [], protocol, 0, 0, 0), false, items) == Evaluate(stoi, items, protocol)
  {
    FoldIsExtended(stoi, Config([], [], protocol, 0, 0, 0), false, items);
    var n := BeforeRemotes(items);
    assert [] + Addresses(stoi, items[..n]) == Addresses(stoi, items[..n]);
    assert [] + Addresses(stoi, items[n..]) == Addresses(stoi, items[n..]);
  }

  // ---------------------------------------------------------------- command lines written from items

  /** An item that can be written down and read back. */
  predicate WellFormed(item: Item) {
    match item
    case Empty => false
    case AddAddress(addr, _) => addr != "" && addr[0] != '-'
    case Unknown(flag) => flag != "" && flag[0] == '-' && flag !in {"-p", "-mtu", "-seg", "-msg", "-r"}
    case _ => true
  }

  function Written(item: Item): (r: seq<string>)
    ensures 1 <= |r| <= 2
  {
    match item
    case SetProtocol(s) => ["-p", s]
    case SetMtu(n) => ["-mtu", n]
    case SetSeg(n) => ["-seg", n]
    case SetMsg(n) => ["-msg", n]
    case BeginRemotes => ["-r"]
    case Unknown(flag) => [flag]
    case AddAddress(addr, port) => [addr, port]
    case Empty => [""]
  }

  function CommandLine(items: seq<Item>): seq<string> {
    if items == [] then [] else Written(items[0]) + CommandLine(items[1..])
  }

  lemma WrittenReadsBack(item: Item, rest: seq<string>)
    requires WellFormed(item) && |Written(item) + rest| >= 2
    ensures Items(Written(item) + rest) == [item] + Items(rest)
  {
    var args := Written(item) + rest;
    assert args[|Written(item)|..] == rest;
    assert args[0] == Written(item)[0];
    assert Stride(args[0]) == |Written(item)|;
    assert |Written(item)| == 2 ==> args[1] == Written(item)[1];
    hide Items;
    ItemsStep(args);
  }

  /** Reading a written command line gives its items back; only a flag at the very end, which the
      loop never looks at, is dropped. */
  lemma {:induction false} CommandLineReadsBack(items: seq<Item>)
    requires forall i :: 0 <= i < |items| ==> WellFormed(items[i])
    ensures items == [] ==> Items(CommandLine(items)) == items
    ensures items != [] ==>
              Items(CommandLine(items)) == if |Written(items[|items| - 1])| == 2 then items else items[..|items| - 1]
  {
    ItemsOfShort(CommandLine(items));
    hide Items, WellFormed;
    if items != [] {
      CommandLineReadsBack(items[1..]);
      var rest := CommandLine(items[1..]);
      if |Written(items[0]) + rest| >= 2 {
        WrittenReadsBack(items[0], rest);
        if |items| > 1 {
          assert items[1..][|items| - 2] == items[|items| - 1];
          assert [items[0]] + items[1..][..|items| - 2] == items[..|items| - 1];
        }
        assert [items[0]] + items[1..] == items;
      } else {
        assert |items| == 1 by { CommandLineIsLong(items[1..]); }
      }
    }
  }

  lemma ItemsOfShort(args: seq<string>)
    ensures |args| <= 1 ==> Items(args) == []
  {
  }

  lemma CommandLineIsLong(items: seq<Item>)
    ensures items != [] ==> CommandLine(items) != []
  {
  }

  /** A flag at the end changes neither the meaning nor whether there is a problem. */
  lemma {:induction false} TrailingFlagIsIdle(stoi: Stoi, items: seq<Item>, last: Item, protocol: Protocol,
                                              c: Config, toRemotes: bool)
    requires last == BeginRemotes || last.Unknown?
    ensures Fold(stoi, c, toRemotes, items + [last]) == Fold(stoi, c, toRemotes, items)
    decreases |items|
  {
    var all := items + [last];
    FoldStep(stoi, c, toRemotes, all);
    if items == [] {
      assert all[1..] == [];
    } else {
      assert all[1..] == items[1..] + [last] && all[0] == items[0];
      TrailingFlagIsIdle(stoi, items[1..], last, protocol,
                         Take(stoi, c, toRemotes, items[0]), toRemotes || items[0] == BeginRemotes);
    }
  }

  /** Parsing a well-formed command line gives what it says, for any program name. */
  lemma WellFormedLineMeans(stoi: Stoi, name: string, items: seq<Item>, protocol: Protocol)
    requires forall i :: 0 <= i < |items| ==> WellFormed(items[i])
    ensures Evaluate(stoi, Items(([name] + CommandLine(items))[1..]), protocol) == Evaluate(stoi, items, protocol)
  {
    hide Items, Evaluate, Fold, CommandLine, WellFormed, Written;
    assert ([name] + CommandLine(items))[1..] == CommandLine(items);
    CommandLineReadsBack(items);
    if items != [] && |Written(items[|items| - 1])| == 1 {
      assert items[|items| - 1] == BeginRemotes || items[|items| - 1].Unknown? by {
        ShortItem(items[|items| - 1]);
      }
      LastFlagIsIdle(stoi, items, protocol);
    }
  }

  lemma ShortItem(item: Item)
    requires WellFormed(item) && |Written(item)| == 1
    ensures item == BeginRemotes || item.Unknown?
  {
  }

  lemma LastFlagIsIdle(stoi: Stoi, items: seq<Item>, protocol: Protocol)
    requires items != [] && (items[|items| - 1] == BeginRemotes || items[|items| - 1].Unknown?)
    ensures Evaluate(stoi, items[..|items| - 1], protocol) == Evaluate(stoi, items, protocol)
  {
    hide Evaluate, Fold;
    var but, last := items[..|items| - 1], items[|items| - 1];
    assert but + [last] == items;
    TrailingFlagIsIdle(stoi, but, last, protocol, Config([], [], protocol, 0, 0, 0), false);
    FoldIsEvaluate(stoi, protocol, but);
    FoldIsEvaluate(stoi, protocol, items);
  }

  // ---------------------------------------------------------------- what each argument does

  /** What a command line without the program's name comes to. */
  function Parsed(stoi: Stoi, line: seq<string>, protocol: Protocol): Result<Config, Error> {
    Evaluate(stoi, Items(line), protocol)
  }

  /** Written items are read back whatever follows them. */
  lemma {:induction false} ReadsBackThen(items: seq<Item>, rest: seq<string>)
    requires (forall i :: 0 <= i < |items| ==> WellFormed(items[i])) && |rest| >= 2
    ensures Items(CommandLine(items) + rest) == items + Items(rest)
  {
    hide Items, WellFormed;
    if items == [] {
      assert CommandLine(items) + rest == rest && items + Items(rest) == Items(rest);
    } else {
      var more := CommandLine(items[1..]) + rest;
      assert CommandLine(items) + rest == Written(items[0]) + more;
      WrittenReadsBack(items[0], more);
      ReadsBackThen(items[1..], rest);
      assert items == [items[0]] + items[1..];
      assert [items[0]] + (items[1..] + Items(rest)) == items + Items(rest);
    }
  }

  lemma {:induction false} FoldThen(stoi: Stoi, c: Config, toRemotes: bool, items: seq<Item>, more: seq<Item>)
    ensures Fold(stoi, c, toRemotes, items + more) ==
            match Fold(stoi, c, toRemotes, items)
            case Err(e) => Err(e)
            case Ok(d) => Fold(stoi, d, toRemotes || BeginRemotes in items, more)
    decreases |items|
  {
    if items == [] {
      assert items + more == more;
    } else {
      assert (items + more)[1..] == items[1..] + more && items == [items[0]] + items[1..];
      FoldStep(stoi, c, toRemotes, items + more);
      FoldThen(stoi, Take(stoi, c, toRemotes, items[0]), toRemotes || items[0] == BeginRemotes, items[1..], more);
    }
  }

  /** What further arguments do to a well-formed line depends on its result and on whether it has
      a `-r`. */
  lemma ParsedThen(stoi: Stoi, items: seq<Item>, rest: seq<string>, protocol: Protocol)
    requires (forall i :: 0 <= i < |items| ==> WellFormed(items[i])) && |rest| >= 2
    ensures Parsed(stoi, CommandLine(items) + rest, protocol) ==
            match Parsed(stoi, CommandLine(items), protocol)
            case Err(e) => Err(e)
            case Ok(c) => Fold(stoi, c, BeginRemotes in items, Items(rest))
  {
    hide Items, Evaluate, Fold, WellFormed, CommandLine;
    ReadsBackThen(items, rest);
    WellFormedLineMeans(stoi, "", items, protocol);
    assert ([""] + CommandLine(items))[1..] == CommandLine(items);
    FoldIsEvaluate(stoi, protocol, items);
    FoldIsEvaluate(stoi, protocol, items + Items(rest));
    FoldThen(stoi, Config([], [], protocol, 0, 0, 0), false, items, Items(rest));
  }

  lemma OneItem(stoi: Stoi, c: Config, toRemotes: bool, arg: string, value: string)
    requires arg != "" && Stride(arg) == 2
    ensures Fold(stoi, c, toRemotes, Items([arg, value])) ==
            var item := ItemOf(arg, value);
            if NumberIn(item).Some? && stoi(NumberIn(item).value).None? then Err(BadNumber)
            else Ok(Take(stoi, c, toRemotes, item))
  {
    assert [arg, value][2..] == [];
    LoopStep(stoi, c, toRemotes, [arg, value]);
  }

  /** The empty line sets nothing. */
  lemma NothingParsed(stoi: Stoi, protocol: Protocol)
    ensures Parsed(stoi, [], protocol) == Ok(Config([], [], protocol, 0, 0, 0))
  {
  }

  /** After any well-formed line that parses, an option changes its own setting and no other; a number
      that cannot be read, or an empty argument, is an error. */
  lemma OptionsTakeEffect(stoi: Stoi, items: seq<Item>, protocol: Protocol, c: Config, v: string)
    requires forall i :: 0 <= i < |items| ==> WellFormed(items[i])
    requires Parsed(stoi, CommandLine(items), protocol) == Ok(c)
    ensures var line := CommandLine(items);
            && Parsed(stoi, line + ["-p", v], protocol) == Ok(c.(protocol := GetProtocol(v)))
            && Parsed(stoi, line + ["", v], protocol) == Err(EmptyArgument)
            && if stoi(v).None? then
                 forall flag :: flag in {"-mtu", "-seg", "-msg"} ==>
                   Parsed(stoi, line + [flag, v], protocol) == Err(BadNumber)
               else
                 && Parsed(stoi, line + ["-mtu", v], protocol) == Ok(c.(mtu := stoi(v).value))
                 && Parsed(stoi, line + ["-seg", v], protocol) == Ok(c.(seg := stoi(v).value))
                 && Parsed(stoi, line + ["-msg", v], protocol) == Ok(c.(msg := stoi(v).value))
  {
    hide Parsed, Items, CommandLine, WellFormed, Fold, GetProtocol;
    var toRemotes := BeginRemotes in items;
    forall flag | flag in {"-p", "-mtu", "-seg", "-msg", ""}
      ensures Parsed(stoi, CommandLine(items) + [flag, v], protocol) == Fold(stoi, c, toRemotes, Items([flag, v]))
    {
      ParsedThen(stoi, items, [flag, v], protocol);
    }
    OneItem(stoi, c, toRemotes, "-p", v);
    OneItem(stoi, c, toRemotes, "-mtu", v);
    OneItem(stoi, c, toRemotes, "-seg", v);
    OneItem(stoi, c, toRemotes, "-msg", v);
    LoopStep(stoi, c, toRemotes, ["", v]);
  }

  /** An address goes to the end of the locals, or of the remotes if there has been a `-r`. */
  lemma AddressesTakeEffect(stoi: Stoi, items: seq<Item>, protocol: Protocol, c: Config, addr: string, port: string)
    requires forall i :: 0 <= i < |items| ==> WellFormed(items[i])
    requires Parsed(stoi, CommandLine(items), protocol) == Ok(c) && addr != "" && addr[0] != '-'
    ensures var line := CommandLine(items);
            if stoi(port).None? then
              && Parsed(stoi, line + [addr, port], protocol) == Err(BadNumber)
              && Parsed(stoi, line + ["-r", addr, port], protocol) == Err(BadNumber)
            else
              var a := Address(addr, ToPort(stoi(port).value));
              && Parsed(stoi, line + ["-r", addr, port], protocol) == Ok(c.(remotes := c.remotes + [a]))
              && Parsed(stoi, line + [addr, port], protocol) ==
                 Ok(if BeginRemotes in items then c.(remotes := c.remotes + [a]) else c.(locals := c.locals + [a]))
  {
    hide Parsed, Items, CommandLine, WellFormed, Fold, ToPort;
    var toRemotes := BeginRemotes in items;
    ParsedThen(stoi, items, [addr, port], protocol);
    ParsedThen(stoi, items, ["-r", addr, port], protocol);
    assert ["-r", addr, port][1..] == [addr, port];
    LoopStep(stoi, c, toRemotes, ["-r", addr, port]);
    OneItem(stoi, c, toRemotes, addr, port);
    OneItem(stoi, c, true, addr, port);
  }

  /** A flag that is not known has no effect, and neither does a `-r` after the first. */
  lemma IdleFlags(stoi: Stoi, items: seq<Item>, flag: string, rest: seq<string>, protocol: Protocol)
    requires (forall i :: 0 <= i < |items| ==> WellFormed(items[i])) && |rest| >= 2
    requires flag != "" && flag[0] == '-' && flag !in {"-p", "-mtu", "-seg", "-msg"}
    requires flag == "-r" ==> BeginRemotes in items
    ensures Parsed(stoi, CommandLine(items) + [flag] + rest, protocol) ==
            Parsed(stoi, CommandLine(items) + rest, protocol)
  {
    hide Parsed, Items, CommandLine, WellFormed, Fold;
    assert CommandLine(items) + [flag] + rest == CommandLine(items) + ([flag] + rest);
    assert ([flag] + rest)[1..] == rest;
    ParsedThen(stoi, items, rest, protocol);
    ParsedThen(stoi, items, [flag] + rest, protocol);
    match Parsed(stoi, CommandLine(items), protocol)
    case Err(_) =>
    case Ok(c) => LoopStep(stoi, c, BeginRemotes in items, [flag] + rest);
  }

  /** The first problem on a line is its result, whatever follows. */
  lemma FirstProblemStays(stoi: Stoi, items: seq<Item>, rest: seq<string>, protocol: Protocol)
    requires (forall i :: 0 <= i < |items| ==> WellFormed(items[i])) && |rest| >= 2
    requires Parsed(stoi, CommandLine(items), protocol).Err?
    ensures Parsed(stoi, CommandLine(items) + rest, protocol) == Parsed(stoi, CommandLine(items), protocol)
  {
    hide Parsed, Items, CommandLine, WellFormed, Fold;
    ParsedThen(stoi, items, rest, protocol);
  }

  // ---------------------------------------------------------------- names and ports

  function NameOf(p: Protocol): string {
    match p
    case Sctp => "sctp"
    case Tcp => "tcp"
    case Udp => "udp"
    case UdpLite => "udp_lite"
    case Dccp => "dccp"
    case Unix => "unix"
    case UnixForked => "fork"
  }

  /** arg is the name with any of its letters in upper case. */
  predicate InAnyCase(arg: string, name: string) {
    && |arg| == |name|
    && forall i :: 0 <= i < |arg| ==>
         arg[i] == name[i] || ('a' <= name[i] <= 'z' && arg[i] as int + 32 == name[i] as int)
  }

  predicate LowerCase(name: string) {
    forall i :: 0 <= i < |name| ==> !('A' <= name[i] <= 'Z')
  }

  lemma ToLowerIff(arg: string, name: string)
    requires LowerCase(name)
    ensures ToLower(arg) == name <==> InAnyCase(arg, name)
  {
    if InAnyCase(arg, name) {
      forall i | 0 <= i < |arg|
        ensures ToLower(arg)[i] == name[i]
      {
      }
    }
    if ToLower(arg) == name {
      forall i | 0 <= i < |arg|
        ensures arg[i] == name[i] || ('a' <= name[i] <= 'z' && arg[i] as int + 32 == name[i] as int)
      {
        assert ToLower(arg)[i] == name[i];
      }
    }
  }

  /** Each protocol is chosen by its name in any letter case; SCTP also by everything that is no name. */
  lemma ProtocolsByName(arg: string, p: Protocol)
    ensures InAnyCase(arg, NameOf(p)) ==> GetProtocol(arg) == p
    ensures GetProtocol(arg) == p ==>
              InAnyCase(arg, NameOf(p)) || (p == Sctp && forall q :: !InAnyCase(arg, NameOf(q)))
  {
    forall q: Protocol
      ensures LowerCase(NameOf(q)) && (ToLower(arg) == NameOf(q) <==> InAnyCase(arg, NameOf(q)))
    {
      ToLowerIff(arg, NameOf(q));
    }
    hide ToLower, InAnyCase;
  }

  /** A port number in range is itself, and any other number the one it is congruent to. */
  lemma ToPortWraps(n: int, k: int)
    ensures 0 <= ToPort(n) < 0x1_0000
    ensures 0 <= n < 0x1_0000 ==> ToPort(n + k * 0x1_0000) == n
  {
  }
}
