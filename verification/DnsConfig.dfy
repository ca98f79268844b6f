/** DNS settings of a profile: the syntax of names and lists, and the binary
    payload that carries them to the helper. Numeric addresses are recognised by
    the C library's `inet_pton`, here the parameter `Pton`. */
module DnsConfig {
  import opened Amneziawg
  import opened Text

  const MAX_DNS_PAYLOAD: nat := 256 * 1024
  const HEADER_SIZE: nat := 16
  const MIN_RECORD_SIZE: nat := 5
  const MAX_RECORDS: nat := (MAX_DNS_PAYLOAD - HEADER_SIZE) / MIN_RECORD_SIZE
  const MAX_DOMAIN: nat := 253
  const MAX_LABEL: nat := 63
  const UINT32_END: nat := 0x1_0000_0000

  datatype Family = Inet | Inet6 | OtherFamily

  datatype DnsServer = DnsServer(family: Family, address: string)

  datatype DnsConfig = DnsConfig(servers: seq<DnsServer>, domains: seq<string>)

  const EMPTY_DNS := DnsConfig([], [])

  /** The address a text denotes in a family, if it denotes one. */
  type Pton = (Family, string) -> Option<string>

  // ------------------------------------------------------------------------
  // Host names
  // ------------------------------------------------------------------------

  predicate IsLetterDigitHyphen(c: char) {
    IsAlnum(c) || c == '-'
  }

  /** One label: letters, digits and hyphens, with no hyphen at either end. */
  predicate IsLabel(l: string) {
    && 0 < |l| <= MAX_LABEL
    && (forall i | 0 <= i < |l| :: IsLetterDigitHyphen(l[i]))
    && l[0] != '-' && l[|l| - 1] != '-'
  }

  /** The labels between the dots. */
  function Labels(s: string): (r: seq<string>)
    ensures r != []
  {
    if s == [] then [""]
    else
      var before, c := Labels(s[..|s| - 1]), s[|s| - 1];
      if c == '.' then before + [""] else before[..|before| - 1] + [before[|before| - 1] + [c]]
  }

  function JoinLabels(labels: seq<string>): string
    requires labels != []
  {
    if |labels| == 1 then labels[0] else JoinLabels(labels[..|labels| - 1]) + "." + labels[|labels| - 1]
  }

  lemma JoinSnoc(labels: seq<string>, last: string)
    requires labels != []
    ensures JoinLabels(labels + [last]) == JoinLabels(labels) + "." + last
  {
    assert (labels + [last])[..|labels|] == labels;
  }

  lemma JoinDot(labels: seq<string>)
    requires labels != []
    ensures JoinLabels(labels + [""]) == JoinLabels(labels) + ['.']
  {
    JoinSnoc(labels, "");
  }

  /** A name whose last label grows. */
  lemma JoinGrows(labels: seq<string>, last: string, c: char)
    ensures JoinLabels(labels + [last + [c]]) == JoinLabels(labels + [last]) + [c]
  {
    if labels == [] {
      assert [] + [last] == [last] && [] + [last + [c]] == [last + [c]];
    } else {
      hide JoinLabels;
      JoinSnoc(labels, last);
      JoinSnoc(labels, last + [c]);
      AppendAssociates(JoinLabels(labels) + ".", last, c);
    }
  }

  lemma AppendAssociates(a: string, b: string, c: char)
    ensures a + (b + [c]) == (a + b) + [c]
  {
  }

  lemma LabelsStep(s: string)
    requires s != []
    ensures JoinLabels(Labels(s)) == JoinLabels(Labels(s[..|s| - 1])) + [s[|s| - 1]]
  {
    var before, c := Labels(s[..|s| - 1]), s[|s| - 1];
    assert Labels(s) == if c == '.' then before + [""] else before[..|before| - 1] + [before[|before| - 1] + [c]];
    hide Labels, JoinLabels;
    if c == '.' {
      JoinDot(before);
    } else {
      LastApart(before);
      JoinGrows(before[..|before| - 1], before[|before| - 1], c);
    }
  }

  lemma LastApart(labels: seq<string>)
    requires labels != []
    ensures labels == labels[..|labels| - 1] + [labels[|labels| - 1]]
  {
  }

  lemma {:induction false} LabelsHoldNoDot(s: string)
    ensures forall i | 0 <= i < |Labels(s)| :: '.' !in Labels(s)[i]
  {
    if s != [] {
      LabelsHoldNoDot(s[..|s| - 1]);
    }
  }

  /** Labels are what the name is made of: joined by dots they give it back, and
      none holds a dot. */
  lemma {:induction false} LabelsJoin(s: string)
    ensures JoinLabels(Labels(s)) == s
    ensures forall i | 0 <= i < |Labels(s)| :: '.' !in Labels(s)[i]
  {
    LabelsHoldNoDot(s);
    if s != [] {
      LabelsStep(s);
      LabelsJoin(s[..|s| - 1]);
      assert s == s[..|s| - 1] + [s[|s| - 1]];
    }
  }

  function Host(s: string): string
    requires s != []
  {
    if s[|s| - 1] == '.' then s[..|s| - 1] else s
  }

  predicate AllLabels(labels: seq<string>) {
    forall i | 0 <= i < |labels| :: IsLabel(labels[i])
  }

  /** A host name, with or without its final dot. */
  predicate IsDomain(s: string) {
    && 0 < |s| <= MAX_DOMAIN
    && Host(s) != [] && AllLabels(Labels(Host(s)))
  }

  lemma LabelsSnoc(s: string, i: nat)
    requires i < |s|
    ensures var before := Labels(s[..i]);
            Labels(s[..i + 1])
            == (if s[i] == '.' then before + [""] else before[..|before| - 1] + [before[|before| - 1] + [s[i]]])
  {
    assert s[..i + 1][..i] == s[..i];
  }

  /** A label before the last one never changes again, and the last one only grows. */
  lemma {:induction false} LabelsStay(s: string, i: nat, k: nat)
    requires i <= |s| && k < |Labels(s[..i])|
    ensures k < |Labels(s)| && Labels(s[..i])[k] <= Labels(s)[k]
    ensures k < |Labels(s[..i])| - 1 ==> Labels(s[..i])[k] == Labels(s)[k]
    decreases |s| - i
  {
    hide Labels;
    if i < |s| {
      LabelsSnoc(s, i);
      LabelsStay(s, i + 1, k);
    } else {
      assert s[..i] == s;
    }
  }

  /** A label that may still go on. */
  predicate IsOpenLabel(l: string) {
    && |l| <= MAX_LABEL
    && (forall j | 0 <= j < |l| :: IsLetterDigitHyphen(l[j]))
    && (l != [] ==> l[0] != '-')
  }

  lemma OpenLabelCloses(l: string)
    requires IsOpenLabel(l)
    ensures IsLabel(l) <==> l != [] && l[|l| - 1] != '-'
  {
  }

  lemma AllLabelsSnoc(labels: seq<string>)
    requires labels != []
    ensures AllLabels(labels) <==> AllLabels(labels[..|labels| - 1]) && IsLabel(labels[|labels| - 1])
  {
  }

  lemma OpenLabelGrows(l: string, c: char)
    requires IsOpenLabel(l)
    ensures IsOpenLabel(l + [c]) <==> |l| < MAX_LABEL && IsLetterDigitHyphen(c) && (l != [] || c != '-')
  {
    var m := l + [c];
    assert m[|l|] == c;
    assert l != [] ==> m[0] == l[0];
  }

  /** Where the scan stands before byte `i`: every label closed so far is one, and
      the open label, of `n` bytes, may still become one. */
  ghost predicate OpenAt(host: string, i: nat, n: nat)
    requires i <= |host|
  {
    var labels := Labels(host[..i]);
    var open := labels[|labels| - 1];
    && AllLabels(labels[..|labels| - 1])
    && IsOpenLabel(open) && n == |open| && n <= i && open == host[i - n..i]
  }

  lemma DotCloses(host: string, i: nat, n: nat)
    requires i < |host| && OpenAt(host, i, n) && host[i] == '.' && n > 0 && host[i - 1] != '-'
    ensures OpenAt(host, i + 1, 0)
  {
    hide IsLabel, Labels;
    LabelsSnoc(host, i);
    var before := Labels(host[..i]);
    OpenLabelCloses(before[|before| - 1]);
    AllLabelsSnoc(before);
    assert Labels(host[..i + 1])[..|before|] == before;
  }

  lemma ByteExtends(host: string, i: nat, n: nat)
    requires i < |host| && OpenAt(host, i, n) && IsLetterDigitHyphen(host[i])
    requires n > 0 || host[i] != '-'
    requires n < MAX_LABEL
    ensures OpenAt(host, i + 1, n + 1)
  {
    hide IsLabel, Labels;
    LabelsSnoc(host, i);
    var before := Labels(host[..i]);
    OpenLabelGrows(before[|before| - 1], host[i]);
    assert Labels(host[..i + 1])[..|before| - 1] == before[..|before| - 1];
    assert host[i + 1 - (n + 1)..i + 1] == host[i - n..i] + [host[i]];
  }

  lemma OpenBad(s: string, i: nat, k: nat)
    requires i <= |s| && k < |Labels(s[..i])| && !IsOpenLabel(Labels(s[..i])[k])
    ensures !AllLabels(Labels(s))
  {
    hide Labels;
    LabelsStay(s, i, k);
    PrefixOpens(Labels(s[..i])[k], Labels(s)[k]);
  }

  lemma PrefixOpens(l: string, whole: string)
    requires l <= whole
    ensures IsLabel(whole) ==> IsOpenLabel(l)
  {
    assert forall j | 0 <= j < |l| :: l[j] == whole[j];
  }

  lemma DotSpoils(host: string, i: nat, n: nat)
    requires i < |host| && OpenAt(host, i, n) && host[i] == '.' && (n == 0 || host[i - 1] == '-')
    ensures !AllLabels(Labels(host))
  {
    hide IsLabel, IsOpenLabel, Labels;
    LabelsSnoc(host, i);
    var before := Labels(host[..i]);
    var last := |before| - 1;
    OpenLabelCloses(before[last]);
    assert Labels(host[..i + 1])[last] == before[last] && |Labels(host[..i + 1])| == last + 2;
    ClosedBad(host, i + 1, last);
  }

  lemma ClosedBad(s: string, i: nat, k: nat)
    requires i <= |s| && k < |Labels(s[..i])| - 1 && !IsLabel(Labels(s[..i])[k])
    ensures !AllLabels(Labels(s))
  {
    hide Labels;
    LabelsStay(s, i, k);
  }

  lemma ByteSpoils(host: string, i: nat, n: nat)
    requires i < |host| && OpenAt(host, i, n) && host[i] != '.'
    requires !IsLetterDigitHyphen(host[i]) || (n == 0 && host[i] == '-') || n == MAX_LABEL
    ensures !AllLabels(Labels(host))
  {
    hide IsLabel, Labels;
    LabelsSnoc(host, i);
    var before := Labels(host[..i]);
    OpenLabelGrows(before[|before| - 1], host[i]);
    OpenBad(host, i + 1, |before| - 1);
  }

  lemma EndDecides(host: string, n: nat)
    requires host != [] && OpenAt(host, |host|, n)
    ensures AllLabels(Labels(host)) <==> n > 0 && host[|host| - 1] != '-'
  {
    hide Labels;
    assert host[..|host|] == host;
    var labels := Labels(host);
    OpenLabelCloses(labels[|labels| - 1]);
    AllLabelsSnoc(labels);
  }

  method HostIsDomain(host: string) returns (ok: bool)
    requires host != []
    ensures ok == AllLabels(Labels(host))
  {
    var labelLength := 0;
    for i := 0 to |host|
      invariant labelLength >= 0 && OpenAt(host, i, labelLength)
    {
      var c := host[i];
      if c == '.' {
        if labelLength == 0 || host[i - 1] == '-' {
          DotSpoils(host, i, labelLength);
          return false;
        }
        DotCloses(host, i, labelLength);
        labelLength := 0;
        continue;
      }
      if (!IsAlnum(c) && c != '-') || (labelLength == 0 && c == '-') || labelLength + 1 > MAX_LABEL {
        ByteSpoils(host, i, labelLength);
        return false;
      }
      ByteExtends(host, i, labelLength);
      labelLength := labelLength + 1;
    }
    EndDecides(host, labelLength);
    ok := labelLength > 0 && host[|host| - 1] != '-';
  }

  /** One pass over the bytes accepts exactly the host names. */
  method ValueIsDomain(value: string) returns (ok: bool)
    ensures ok == IsDomain(value)
  {
    if |value| == 0 || |value| > MAX_DOMAIN {
      return false;
    }
    var length := |value|;
    if value[length - 1] == '.' {
      length := length - 1;
      if length == 0 {
        return false;
      }
    }
    assert value[..length] == Host(value);
    ok := HostIsDomain(value[..length]);
  }

  // ------------------------------------------------------------------------
  // Lists of servers and search domains
  // ------------------------------------------------------------------------

  function Items(value: string): (r: seq<string>)
    ensures r != []
  {
    var comma := Find(value, ',');
    if comma.None? then [value] else [value[..comma.value]] + Items(value[comma.value + 1..])
  }

  /** A span as the C string made of it. */
  function Terminated(s: string): string {
    var end := Find(s, '\0');
    if end.Some? then s[..end.value] else s
  }

  function FamilyOf(text: string): Family {
    if Find(text, ':').Some? then Inet6 else Inet
  }

  function AddressOf(pton: Pton, item: string): Option<DnsServer> {
    var text := Terminated(item);
    var address := pton(FamilyOf(text), text);
    if address.Some? then Some(DnsServer(FamilyOf(text), address.value)) else None
  }

  predicate LooksLikeIpv4(item: string) {
    item != [] && forall i | 0 <= i < |item| :: IsDigit(item[i]) || item[i] == '.'
  }

  predicate ItemOk(pton: Pton, raw: string) {
    var item := Trim(raw);
    item != [] && (AddressOf(pton, item).Some? || (!LooksLikeIpv4(item) && IsDomain(item)))
  }

  predicate ListOk(pton: Pton, raws: seq<string>) {
    forall i | 0 <= i < |raws| :: ItemOk(pton, raws[i])
  }

  datatype Item = Address(server: DnsServer) | Name(domain: string)

  function ReadItem(pton: Pton, raw: string): Item {
    var item := Trim(raw);
    var address := AddressOf(pton, item);
    if address.Some? then Address(address.value) else Name(Terminated(item))
  }

  function ReadItems(pton: Pton, raws: seq<string>): seq<Item> {
    if raws == [] then [] else [ReadItem(pton, raws[0])] + ReadItems(pton, raws[1..])
  }

  function ServersIn(items: seq<Item>): seq<DnsServer> {
    if items == [] then [] else (if items[0].Address? then [items[0].server] else []) + ServersIn(items[1..])
  }

  function DomainsIn(items: seq<Item>): seq<string> {
    if items == [] then [] else (if items[0].Address? then [] else [items[0].domain]) + DomainsIn(items[1..])
  }

  /** The configuration with one more item. */
  function WithItem(dns: DnsConfig, item: Item): DnsConfig {
    if item.Address? then dns.(servers := dns.servers + [item.server]) else dns.(domains := dns.domains + [item.domain])
  }

  function WithItems(dns: DnsConfig, items: seq<Item>): DnsConfig
    decreases |items|
  {
    if items == [] then dns else WithItems(WithItem(dns, items[0]), items[1..])
  }

  lemma ConcatAssociates<T>(a: seq<T>, b: seq<T>, c: seq<T>)
    ensures (a + b) + c == a + (b + c)
  {
  }

  lemma FirstItem(items: seq<Item>)
    requires items != []
    ensures ServersIn(items) == (if items[0].Address? then [items[0].server] else []) + ServersIn(items[1..])
    ensures DomainsIn(items) == (if items[0].Name? then [items[0].domain] else []) + DomainsIn(items[1..])
  {
  }

  /** Addresses and names end up apart, each in the order of the list. */
  lemma {:induction false} ItemsSeparate(dns: DnsConfig, items: seq<Item>)
    ensures WithItems(dns, items) == DnsConfig(dns.servers + ServersIn(items), dns.domains + DomainsIn(items))
    decreases |items|
  {
    if items == [] {
      assert dns.servers + [] == dns.servers && dns.domains + [] == dns.domains;
    } else {
      FirstItem(items);
      ItemsSeparate(WithItem(dns, items[0]), items[1..]);
      hide ServersIn, DomainsIn;
      var servers := if items[0].Address? then [items[0].server] else [];
      var domains := if items[0].Name? then [items[0].domain] else [];
      assert WithItem(dns, items[0]) == DnsConfig(dns.servers + servers, dns.domains + domains);
      ConcatAssociates(dns.servers, servers, ServersIn(items[1..]));
      ConcatAssociates(dns.domains, domains, DomainsIn(items[1..]));
    }
  }

  /** A configuration extended by one list. */
  function Extended(dns: DnsConfig, pton: Pton, value: string): DnsConfig {
    var items := ReadItems(pton, Items(value));
    DnsConfig(dns.servers + ServersIn(items), dns.domains + DomainsIn(items))
  }

  class DnsBuilder {
    var servers: seq<DnsServer>
    var domains: seq<string>

    function View(): DnsConfig
      reads this
    {
      DnsConfig(servers, domains)
    }

    constructor ()
      ensures View() == EMPTY_DNS
    {
      servers, domains := [], [];
    }

    /** Appends a comma-separated list, or nothing at all. */
    method AddValue(pton: Pton, value: string) returns (ok: bool)
      modifies this
      ensures ok == ListOk(pton, Items(value))
      ensures View() == if ok then Extended(old(View()), pton, value) else old(View())
    {
      ok := IsDnsList(pton, value);
      if ok {
        AddItems(pton, value);
        ItemsSeparate(old(View()), ReadItems(pton, Items(value)));
      }
    }

    method AddItems(pton: Pton, value: string)
      modifies this
      ensures View() == WithItems(old(View()), ReadItems(pton, Items(value)))
    {
      var rest := value;
      ghost var left := ReadItems(pton, Items(value));
      while true
        invariant left == ReadItems(pton, Items(rest))
        invariant WithItems(View(), left) == WithItems(old(View()), ReadItems(pton, Items(value)))
        decreases |rest|
      {
        var comma := FindByte(rest, ',');
        NextRead(pton, Items(rest));
        if comma.None? {
          AddItem(pton, rest);
          return;
        }
        NextItem(rest);
        AddItem(pton, rest[..comma.value]);
        rest := rest[comma.value + 1..];
        left := left[1..];
      }
    }

    method AddItem(pton: Pton, raw: string)
      modifies this
      ensures View() == WithItem(old(View()), ReadItem(pton, raw))
    {
      var start, end := TrimSpan(raw);
      var item := raw[start..end];
      var address := AddressOf(pton, item);
      if address.Some? {
        servers := servers + [address.value];
      } else {
        domains := domains + [Terminated(item)];
      }
    }
  }

  lemma NextItem(value: string)
    requires Find(value, ',').Some?
    ensures var n := Find(value, ',').value; Items(value)[0] == value[..n] && Items(value)[1..] == Items(value[n + 1..])
  {
    hide Find;
    var n := Find(value, ',').value;
    assert Items(value) == [value[..n]] + Items(value[n + 1..]);
  }

  lemma NextRead(pton: Pton, raws: seq<string>)
    requires raws != []
    ensures var items := ReadItems(pton, raws);
            items != [] && items[0] == ReadItem(pton, raws[0]) && items[1..] == ReadItems(pton, raws[1..])
  {
  }

  method IsDnsList(pton: Pton, value: string) returns (ok: bool)
    ensures ok == ListOk(pton, Items(value))
  {
    var rest := value;
    while true
      invariant ListOk(pton, Items(value)) == ListOk(pton, Items(rest))
      decreases |rest|
    {
      var comma := FindByte(rest, ',');
      ListOkCons(pton, Items(rest));
      if comma.None? {
        ok := IsDnsItem(pton, rest);
        return;
      }
      NextItem(rest);
      ok := IsDnsItem(pton, rest[..comma.value]);
      if !ok {
        return;
      }
      rest := rest[comma.value + 1..];
    }
  }

  lemma ListOkCons(pton: Pton, raws: seq<string>)
    requires raws != []
    ensures ListOk(pton, raws) <==> ItemOk(pton, raws[0]) && ListOk(pton, raws[1..])
  {
    assert forall i | 1 <= i < |raws| :: raws[i] == raws[1..][i - 1];
  }

  method IsDnsItem(pton: Pton, raw: string) returns (ok: bool)
    ensures ok == ItemOk(pton, raw)
  {
    var start, end := TrimSpan(raw);
    var item := raw[start..end];
    if item == [] {
      return false;
    }
    if AddressOf(pton, item).Some? {
      return true;
    }
    var ipv4 := ValueLooksLikeIpv4(item);
    if ipv4 {
      return false;
    }
    ok := ValueIsDomain(item);
  }

  method ValueLooksLikeIpv4(item: string) returns (ok: bool)
    ensures ok == LooksLikeIpv4(item)
  {
    if item == [] {
      return false;
    }
    for i := 0 to |item|
      invariant forall k | 0 <= k < i :: IsDigit(item[k]) || item[k] == '.'
    {
      if !IsDigit(item[i]) && item[i] != '.' {
        return false;
      }
    }
    return true;
  }

  // ------------------------------------------------------------------------
  // The payload
  // ------------------------------------------------------------------------

  predicate IsBytes(s: string) {
    forall i | 0 <= i < |s| :: s[i] as int < 256
  }

  /** A big-endian 32-bit number. */
  function Be32(n: nat): (s: string)
    ensures |s| == 4
  {
    [(n / 0x100_0000 % 256) as char, (n / 0x1_0000 % 256) as char, (n / 0x100 % 256) as char, (n % 256) as char]
  }

  function ReadBe32(s: string): nat
    requires |s| >= 4
  {
    s[0] as int * 0x100_0000 + s[1] as int * 0x1_0000 + s[2] as int * 0x100 + s[3] as int
  }

  lemma Be32RoundTrip(n: nat)
    requires n < UINT32_END
    ensures ReadBe32(Be32(n)) == n
  {
    var n1 := n / 0x100;
    var n2 := n1 / 0x100;
    var n3 := n2 / 0x100;
    assert n / 0x1_0000 == n2 && n / 0x100_0000 == n3 && n3 < 0x100;
    assert n == n1 * 0x100 + n % 0x100 && n1 == n2 * 0x100 + n1 % 0x100 && n2 == n3 * 0x100 + n2 % 0x100;
  }

  lemma BytesOf(a: nat, b: nat, c: nat, d: nat, n: nat)
    requires a < 256 && b < 256 && c < 256 && d < 256
    requires n == a * 0x100_0000 + b * 0x1_0000 + c * 0x100 + d
    ensures n / 0x100_0000 % 256 == a && n / 0x1_0000 % 256 == b && n / 0x100 % 256 == c && n % 256 == d
    ensures n < UINT32_END
  {
    assert n / 0x100 == a * 0x1_0000 + b * 0x100 + c;
    assert n / 0x1_0000 == a * 0x100 + b;
    assert n / 0x100_0000 == a;
  }

  lemma Be32Unique(s: string)
    requires |s| == 4 && IsBytes(s)
    ensures Be32(ReadBe32(s)) == s && ReadBe32(s) < UINT32_END
  {
    var a, b, c, d := s[0] as int, s[1] as int, s[2] as int, s[3] as int;
    BytesOf(a, b, c, d, ReadBe32(s));
  }

  predicate ServerOk(s: DnsServer) {
    (s.family == Inet && |s.address| == 4) || (s.family == Inet6 && |s.address| == 16)
  }

  predicate ServersOk(servers: seq<DnsServer>) {
    forall i | 0 <= i < |servers| :: ServerOk(servers[i])
  }

  predicate DomainsOk(domains: seq<string>) {
    forall i | 0 <= i < |domains| :: IsDomain(domains[i])
  }

  predicate WellFormed(dns: DnsConfig) {
    ServersOk(dns.servers) && DomainsOk(dns.domains) && (dns.domains != [] ==> dns.servers != [])
  }

  const MAGIC: string := "NMSDNS1\0"

  function EncodeServer(s: DnsServer): string {
    [if s.family == Inet then 4 as char else 6 as char] + s.address
  }

  function EncodeServers(servers: seq<DnsServer>): string {
    if servers == [] then [] else EncodeServer(servers[0]) + EncodeServers(servers[1..])
  }

  function EncodeDomain(d: string): string {
    Be32(|d|) + d
  }

  function EncodeDomains(domains: seq<string>): string {
    if domains == [] then [] else EncodeDomain(domains[0]) + EncodeDomains(domains[1..])
  }

  function Header(servers: nat, domains: nat): string {
    MAGIC + Be32(servers) + Be32(domains)
  }

  function Encode(dns: DnsConfig): string {
    Header(|dns.servers|, |dns.domains|) + EncodeServers(dns.servers) + EncodeDomains(dns.domains)
  }

  // ------------------------------------------------------------------------
  // Measuring
  // ------------------------------------------------------------------------

  datatype MeasureResult = MeasureOk(size: nat) | MeasureInvalid | MeasureTooLarge

  function ServerSize(s: DnsServer): Option<nat> {
    if ServerOk(s) then Some(|EncodeServer(s)|) else None
  }

  function DomainSize(d: string): Option<nat> {
    if IsDomain(d) then Some(|EncodeDomain(d)|) else None
  }

  function ServerSizes(servers: seq<DnsServer>): (r: seq<Option<nat>>)
    ensures |r| == |servers|
  {
    if servers == [] then [] else [ServerSize(servers[0])] + ServerSizes(servers[1..])
  }

  function DomainSizes(domains: seq<string>): (r: seq<Option<nat>>)
    ensures |r| == |domains|
  {
    if domains == [] then [] else [DomainSize(domains[0])] + DomainSizes(domains[1..])
  }

  /** Records are added up in order: the first that is malformed, or that no longer
      fits, ends the measuring. */
  function Accumulate(sizes: seq<Option<nat>>, measured: nat): MeasureResult {
    if sizes == [] then MeasureOk(measured)
    else if sizes[0].None? then MeasureInvalid
    else if measured + sizes[0].value > MAX_DNS_PAYLOAD then MeasureTooLarge
    else Accumulate(sizes[1..], measured + sizes[0].value)
  }

  function MeasureOf(dns: DnsConfig): MeasureResult {
    if |dns.servers| + |dns.domains| > MAX_RECORDS then MeasureTooLarge
    else if dns.domains != [] && dns.servers == [] then MeasureInvalid
    else Accumulate(ServerSizes(dns.servers) + DomainSizes(dns.domains), HEADER_SIZE)
  }

  function Total(sizes: seq<Option<nat>>): nat {
    if sizes == [] then 0 else (if sizes[0].Some? then sizes[0].value else 0) + Total(sizes[1..])
  }

  predicate AllKnown(sizes: seq<Option<nat>>) {
    None !in sizes
  }

  lemma {:induction false} AccumulateTotals(sizes: seq<Option<nat>>, measured: nat)
    requires measured <= MAX_DNS_PAYLOAD
    ensures Accumulate(sizes, measured).MeasureOk? <==> AllKnown(sizes) && measured + Total(sizes) <= MAX_DNS_PAYLOAD
    ensures Accumulate(sizes, measured).MeasureOk? ==> Accumulate(sizes, measured).size == measured + Total(sizes)
    ensures AllKnown(sizes) ==> !Accumulate(sizes, measured).MeasureInvalid?
  {
    if sizes != [] {
      assert sizes == [sizes[0]] + sizes[1..];
      if sizes[0].Some? && measured + sizes[0].value <= MAX_DNS_PAYLOAD {
        AccumulateTotals(sizes[1..], measured + sizes[0].value);
      }
    }
  }

  lemma {:induction false} AccumulateConcat(a: seq<Option<nat>>, b: seq<Option<nat>>, measured: nat)
    ensures var first := Accumulate(a, measured);
            Accumulate(a + b, measured) == if first.MeasureOk? then Accumulate(b, first.size) else first
  {
    if a == [] {
      assert a + b == b;
    } else {
      assert (a + b)[1..] == a[1..] + b;
      if a[0].Some? {
        AccumulateConcat(a[1..], b, measured + a[0].value);
      }
    }
  }

  lemma {:induction false} ServersLength(servers: seq<DnsServer>)
    ensures AllKnown(ServerSizes(servers)) <==> ServersOk(servers)
    ensures ServersOk(servers) ==>
              Total(ServerSizes(servers)) == |EncodeServers(servers)| >= MIN_RECORD_SIZE * |servers|
  {
    if servers != [] {
      ServersLength(servers[1..]);
      assert ServersOk(servers) <==> ServerOk(servers[0]) && ServersOk(servers[1..]) by {
        assert forall i | 1 <= i < |servers| :: servers[i] == servers[1..][i - 1];
      }
    }
  }

  lemma {:induction false} DomainsLength(domains: seq<string>)
    ensures AllKnown(DomainSizes(domains)) <==> DomainsOk(domains)
    ensures DomainsOk(domains) ==>
              Total(DomainSizes(domains)) == |EncodeDomains(domains)| >= MIN_RECORD_SIZE * |domains|
  {
    if domains != [] {
      DomainsLength(domains[1..]);
      assert DomainsOk(domains) <==> IsDomain(domains[0]) && DomainsOk(domains[1..]) by {
        assert forall i | 1 <= i < |domains| :: domains[i] == domains[1..][i - 1];
      }
    }
  }

  /** Measuring accepts exactly the well-formed configurations whose encoding fits,
      with its exact length; the limit on the number of records refuses none of
      them. */
  lemma MeasureIsExact(dns: DnsConfig)
    ensures MeasureOf(dns).MeasureOk? <==> WellFormed(dns) && |Encode(dns)| <= MAX_DNS_PAYLOAD
    ensures MeasureOf(dns).MeasureOk? ==> MeasureOf(dns).size == |Encode(dns)|
    ensures WellFormed(dns) && |Encode(dns)| > MAX_DNS_PAYLOAD ==> MeasureOf(dns).MeasureTooLarge?
  {
    var first := Accumulate(ServerSizes(dns.servers), HEADER_SIZE);
    AccumulateConcat(ServerSizes(dns.servers), DomainSizes(dns.domains), HEADER_SIZE);
    AccumulateTotals(ServerSizes(dns.servers), HEADER_SIZE);
    if first.MeasureOk? {
      AccumulateTotals(DomainSizes(dns.domains), first.size);
    }
    ServersLength(dns.servers);
    DomainsLength(dns.domains);
    assert |Encode(dns)| == HEADER_SIZE + |EncodeServers(dns.servers)| + |EncodeDomains(dns.domains)|;
  }

  lemma NextServerSize(servers: seq<DnsServer>, i: nat)
    requires i < |servers|
    ensures ServerSizes(servers[i..])[0] == ServerSize(servers[i])
    ensures ServerSizes(servers[i..])[1..] == ServerSizes(servers[i + 1..])
  {
    assert servers[i..][1..] == servers[i + 1..];
  }

  lemma NextDomainSize(domains: seq<string>, i: nat)
    requires i < |domains|
    ensures DomainSizes(domains[i..])[0] == DomainSize(domains[i])
    ensures DomainSizes(domains[i..])[1..] == DomainSizes(domains[i + 1..])
  {
    assert domains[i..][1..] == domains[i + 1..];
  }

  method MeasureServers(servers: seq<DnsServer>, start: nat) returns (r: MeasureResult)
    requires start <= MAX_DNS_PAYLOAD
    ensures r == Accumulate(ServerSizes(servers), start)
  {
    var measured := start;
    for i := 0 to |servers|
      invariant 0 <= measured <= MAX_DNS_PAYLOAD
      invariant Accumulate(ServerSizes(servers), start) == Accumulate(ServerSizes(servers[i..]), measured)
    {
      NextServerSize(servers, i);
      var server := servers[i];
      if (server.family != Inet || |server.address| != 4) && (server.family != Inet6 || |server.address| != 16) {
        return MeasureInvalid;
      }
      var encoded := 1 + |server.address|;
      if measured > MAX_DNS_PAYLOAD - encoded {
        return MeasureTooLarge;
      }
      measured := measured + encoded;
    }
    r := MeasureOk(measured);
  }

  method MeasureDomains(domains: seq<string>, start: nat) returns (r: MeasureResult)
    requires start <= MAX_DNS_PAYLOAD
    ensures r == Accumulate(DomainSizes(domains), start)
  {
    var measured := start;
    for i := 0 to |domains|
      invariant 0 <= measured <= MAX_DNS_PAYLOAD
      invariant Accumulate(DomainSizes(domains), start) == Accumulate(DomainSizes(domains[i..]), measured)
    {
      NextDomainSize(domains, i);
      var ok := ValueIsDomain(domains[i]);
      if !ok {
        return MeasureInvalid;
      }
      var encoded := 4 + |domains[i]|;
      if measured > MAX_DNS_PAYLOAD - encoded {
        return MeasureTooLarge;
      }
      measured := measured + encoded;
    }
    r := MeasureOk(measured);
  }

  method Measure(dns: DnsConfig) returns (r: MeasureResult)
    ensures r == MeasureOf(dns)
  {
    if |dns.servers| + |dns.domains| > MAX_RECORDS {
      return MeasureTooLarge;
    }
    if |dns.domains| > 0 && |dns.servers| == 0 {
      return MeasureInvalid;
    }
    AccumulateConcat(ServerSizes(dns.servers), DomainSizes(dns.domains), HEADER_SIZE);
    AccumulateTotals(ServerSizes(dns.servers), HEADER_SIZE);
    r := MeasureServers(dns.servers, HEADER_SIZE);
    if r.MeasureOk? {
      r := MeasureDomains(dns.domains, r.size);
    }
  }

  // ------------------------------------------------------------------------
  // Serializing
  // ------------------------------------------------------------------------

  lemma {:induction false} EncodeServersSnoc(servers: seq<DnsServer>, i: nat)
    requires i < |servers|
    ensures EncodeServers(servers[..i + 1]) == EncodeServers(servers[..i]) + EncodeServer(servers[i])
  {
    if i == 0 {
      assert servers[..1] == [servers[0]];
    } else {
      EncodeServersSnoc(servers[1..], i - 1);
      assert servers[..i + 1][1..] == servers[1..][..i] && servers[..i][1..] == servers[1..][..i - 1];
      ConcatAssociates(EncodeServer(servers[0]), EncodeServers(servers[1..][..i - 1]), EncodeServer(servers[i]));
    }
  }

  lemma {:induction false} EncodeDomainsSnoc(domains: seq<string>, i: nat)
    requires i < |domains|
    ensures EncodeDomains(domains[..i + 1]) == EncodeDomains(domains[..i]) + EncodeDomain(domains[i])
  {
    if i == 0 {
      assert domains[..1] == [domains[0]];
    } else {
      EncodeDomainsSnoc(domains[1..], i - 1);
      assert domains[..i + 1][1..] == domains[1..][..i] && domains[..i][1..] == domains[1..][..i - 1];
      ConcatAssociates(EncodeDomain(domains[0]), EncodeDomains(domains[1..][..i - 1]), EncodeDomain(domains[i]));
    }
  }

  /** Copies a text into the buffer at an offset. */
  method Put(buffer: array<char>, offset: nat, text: string)
    requires offset + |text| <= buffer.Length
    modifies buffer
    ensures buffer[..offset + |text|] == old(buffer[..offset]) + text
  {
    for i := 0 to |text|
      invariant buffer[..offset + i] == old(buffer[..offset]) + text[..i]
    {
      buffer[offset + i] := text[i];
    }
    assert text[..|text|] == text;
  }

  lemma {:induction false} EncodedPrefix(servers: seq<DnsServer>, i: nat)
    requires i <= |servers|
    ensures |EncodeServers(servers[..i])| <= |EncodeServers(servers)|
    decreases |servers| - i
  {
    if i < |servers| {
      EncodeServersSnoc(servers, i);
      EncodedPrefix(servers, i + 1);
    } else {
      assert servers[..i] == servers;
    }
  }

  lemma {:induction false} EncodedDomainsPrefix(domains: seq<string>, i: nat)
    requires i <= |domains|
    ensures |EncodeDomains(domains[..i])| <= |EncodeDomains(domains)|
    decreases |domains| - i
  {
    if i < |domains| {
      EncodeDomainsSnoc(domains, i);
      EncodedDomainsPrefix(domains, i + 1);
    } else {
      assert domains[..i] == domains;
    }
  }

  method PutServers(buffer: array<char>, start: nat, servers: seq<DnsServer>) returns (offset: nat)
    requires start + |EncodeServers(servers)| <= buffer.Length
    modifies buffer
    ensures offset == start + |EncodeServers(servers)|
    ensures buffer[..offset] == old(buffer[..start]) + EncodeServers(servers)
  {
    offset := start;
    for i := 0 to |servers|
      invariant offset == start + |EncodeServers(servers[..i])| <= buffer.Length
      invariant buffer[..offset] == old(buffer[..start]) + EncodeServers(servers[..i])
    {
      EncodeServersSnoc(servers, i);
      EncodedPrefix(servers, i + 1);
      ConcatAssociates(old(buffer[..start]), EncodeServers(servers[..i]), EncodeServer(servers[i]));
      Put(buffer, offset, EncodeServer(servers[i]));
      offset := offset + 1 + |servers[i].address|;
    }
    assert servers[..|servers|] == servers;
  }

  method PutDomains(buffer: array<char>, start: nat, domains: seq<string>) returns (offset: nat)
    requires start + |EncodeDomains(domains)| <= buffer.Length
    modifies buffer
    ensures offset == start + |EncodeDomains(domains)|
    ensures buffer[..offset] == old(buffer[..start]) + EncodeDomains(domains)
  {
    offset := start;
    for i := 0 to |domains|
      invariant offset == start + |EncodeDomains(domains[..i])| <= buffer.Length
      invariant buffer[..offset] == old(buffer[..start]) + EncodeDomains(domains[..i])
    {
      EncodeDomainsSnoc(domains, i);
      EncodedDomainsPrefix(domains, i + 1);
      ConcatAssociates(old(buffer[..start]), EncodeDomains(domains[..i]), EncodeDomain(domains[i]));
      Put(buffer, offset, EncodeDomain(domains[i]));
      offset := offset + 4 + |domains[i]|;
    }
    assert domains[..|domains|] == domains;
  }

  /** The payload of a measured configuration, written in place. */
  method Serialize(dns: DnsConfig) returns (r: Option<string>)
    ensures r.Some? <==> MeasureOf(dns).MeasureOk?
    ensures r.Some? ==> r.value == Encode(dns)
  {
    var measured := Measure(dns);
    if !measured.MeasureOk? {
      return None;
    }
    MeasureIsExact(dns);
    var buffer := new char[measured.size];
    Put(buffer, 0, Header(|dns.servers|, |dns.domains|));
    assert buffer[..HEADER_SIZE] == Header(|dns.servers|, |dns.domains|);
    var offset := PutServers(buffer, HEADER_SIZE, dns.servers);
    offset := PutDomains(buffer, offset, dns.domains);
    assert buffer[..offset] == buffer[..];
    r := Some(buffer[..]);
  }

  // ------------------------------------------------------------------------
  // Parsing
  // ------------------------------------------------------------------------

  function TagFamily(tag: char): Family {
    if tag == 4 as char then Inet else if tag == 6 as char then Inet6 else OtherFamily
  }

  function AddressLength(family: Family): nat {
    match family
    case Inet => 4
    case Inet6 => 16
    case OtherFamily => 0
  }

  function DecodeServer(data: string): Option<(DnsServer, string)> {
    if data == [] then None
    else
      var n := AddressLength(TagFamily(data[0]));
      if n == 0 || n > |data| - 1 then None else Some((DnsServer(TagFamily(data[0]), data[1..1 + n]), data[1 + n..]))
  }

  function DecodeDomain(data: string): Option<(string, string)> {
    if |data| < 4 then None
    else
      var n := ReadBe32(data[..4]);
      if n == 0 || n > MAX_DOMAIN || n > |data| - 4 || !IsDomain(data[4..4 + n]) then None
      else Some((data[4..4 + n], data[4 + n..]))
  }

  /** What was decoded before a reading of the rest. */
  function After<T>(done: seq<T>, r: Option<(seq<T>, string)>): Option<(seq<T>, string)> {
    if r.Some? then Some((done + r.value.0, r.value.1)) else None
  }

  lemma AfterNothing<T>(r: Option<(seq<T>, string)>)
    ensures After([], r) == r
  {
    if r.Some? {
      assert [] + r.value.0 == r.value.0;
    }
  }

  lemma AfterOneMore<T>(done: seq<T>, item: T, r: Option<(seq<T>, string)>)
    ensures After(done, After([item], r)) == After(done + [item], r)
  {
    if r.Some? {
      ConcatAssociates(done, [item], r.value.0);
    }
  }

  /** `count` servers and what follows them. */
  function DecodeServers(data: string, count: nat): Option<(seq<DnsServer>, string)> {
    if count == 0 then Some(([], data))
    else
      var first := DecodeServer(data);
      if first.None? then None else After([first.value.0], DecodeServers(first.value.1, count - 1))
  }

  function DecodeDomains(data: string, count: nat): Option<(seq<string>, string)> {
    if count == 0 then Some(([], data))
    else
      var first := DecodeDomain(data);
      if first.None? then None else After([first.value.0], DecodeDomains(first.value.1, count - 1))
  }

  function DecodeRecords(data: string, servers: nat, domains: nat): Option<DnsConfig> {
    var (ss, rest) :- DecodeServers(data, servers);
    var (ds, end) :- DecodeDomains(rest, domains);
    if end == [] then Some(DnsConfig(ss, ds)) else None
  }

  function Decode(data: string): Option<DnsConfig> {
    if |data| < HEADER_SIZE || |data| > MAX_DNS_PAYLOAD || data[..8] != MAGIC then None
    else
      var servers, domains := ReadBe32(data[8..12]), ReadBe32(data[12..16]);
      if servers > |data| || domains > |data| || (domains > 0 && servers == 0) then None
      else DecodeRecords(data[16..], servers, domains)
  }

  lemma ServerDecodes(s: DnsServer, rest: string)
    requires ServerOk(s)
    ensures DecodeServer(EncodeServer(s) + rest) == Some((s, rest))
  {
    var data := EncodeServer(s) + rest;
    assert data[1..1 + |s.address|] == s.address && data[1 + |s.address|..] == rest;
  }

  lemma DecodedServer(data: string)
    requires DecodeServer(data).Some?
    ensures var (s, rest) := DecodeServer(data).value; ServerOk(s) && data == EncodeServer(s) + rest
  {
  }

  lemma DomainDecodes(d: string, rest: string)
    requires IsDomain(d)
    ensures DecodeDomain(EncodeDomain(d) + rest) == Some((d, rest))
  {
    var data := EncodeDomain(d) + rest;
    Be32RoundTrip(|d|);
    assert data[..4] == Be32(|d|) && data[4..4 + |d|] == d && data[4 + |d|..] == rest;
  }

  lemma DecodedDomain(data: string)
    requires DecodeDomain(data).Some? && IsBytes(data)
    ensures var (d, rest) := DecodeDomain(data).value; IsDomain(d) && data == EncodeDomain(d) + rest && IsBytes(rest)
  {
    Be32Unique(data[..4]);
    var (d, rest) := DecodeDomain(data).value;
    assert data == data[..4] + d + rest;
  }

  lemma {:induction false} ServersDecode(servers: seq<DnsServer>, rest: string)
    requires ServersOk(servers)
    ensures DecodeServers(EncodeServers(servers) + rest, |servers|) == Some((servers, rest))
  {
    if servers == [] {
      assert EncodeServers(servers) + rest == rest;
    } else {
      ServersDecode(servers[1..], rest);
      var tail := EncodeServers(servers[1..]) + rest;
      ServerDecodes(servers[0], tail);
      ConcatAssociates(EncodeServer(servers[0]), EncodeServers(servers[1..]), rest);
      assert [servers[0]] + servers[1..] == servers;
    }
  }

  lemma {:induction false} DecodedServers(data: string, count: nat)
    requires DecodeServers(data, count).Some? && IsBytes(data)
    ensures var (servers, rest) := DecodeServers(data, count).value;
            ServersOk(servers) && |servers| == count && data == EncodeServers(servers) + rest && IsBytes(rest)
  {
    if count > 0 {
      var (first, rest) := DecodeServer(data).value;
      DecodedServer(data);
      DecodedServers(rest, count - 1);
      var (others, end) := DecodeServers(rest, count - 1).value;
      assert ([first] + others)[1..] == others;
      ConcatAssociates(EncodeServer(first), EncodeServers(others), end);
    }
  }

  lemma {:induction false} DomainsDecode(domains: seq<string>, rest: string)
    requires DomainsOk(domains)
    ensures DecodeDomains(EncodeDomains(domains) + rest, |domains|) == Some((domains, rest))
  {
    hide IsDomain;
    if domains == [] {
      assert EncodeDomains(domains) + rest == rest;
    } else {
      DomainsDecode(domains[1..], rest);
      var tail := EncodeDomains(domains[1..]) + rest;
      DomainDecodes(domains[0], tail);
      ConcatAssociates(EncodeDomain(domains[0]), EncodeDomains(domains[1..]), rest);
      assert [domains[0]] + domains[1..] == domains;
    }
  }

  lemma DomainsOkCons(first: string, others: seq<string>)
    requires IsDomain(first) && DomainsOk(others)
    ensures DomainsOk([first] + others)
  {
  }

  lemma EncodeDomainsCons(first: string, others: seq<string>, end: string)
    ensures EncodeDomain(first) + (EncodeDomains(others) + end) == EncodeDomains([first] + others) + end
  {
    assert ([first] + others)[1..] == others;
    ConcatAssociates(EncodeDomain(first), EncodeDomains(others), end);
  }

  lemma {:induction false} DecodedDomainsOk(data: string, count: nat)
    requires DecodeDomains(data, count).Some? && IsBytes(data)
    ensures DomainsOk(DecodeDomains(data, count).value.0) && |DecodeDomains(data, count).value.0| == count
  {
    hide IsDomain;
    if count > 0 {
      var (first, rest) := DecodeDomain(data).value;
      DecodedDomain(data);
      DecodedDomainsOk(rest, count - 1);
      DomainsOkCons(first, DecodeDomains(rest, count - 1).value.0);
    }
  }

  lemma {:induction false} DecodedDomains(data: string, count: nat)
    requires DecodeDomains(data, count).Some? && IsBytes(data)
    ensures var (domains, rest) := DecodeDomains(data, count).value; data == EncodeDomains(domains) + rest
  {
    hide IsDomain;
    if count > 0 {
      var (first, rest) := DecodeDomain(data).value;
      DecodedDomain(data);
      DecodedDomains(rest, count - 1);
      var (others, end) := DecodeDomains(rest, count - 1).value;
      EncodeDomainsCons(first, others, end);
    }
  }

  lemma HeaderRead(servers: nat, domains: nat, records: string)
    requires servers < UINT32_END && domains < UINT32_END
    ensures var data := Header(servers, domains) + records;
            && |data| == HEADER_SIZE + |records| && data[..8] == MAGIC && data[16..] == records
            && ReadBe32(data[8..12]) == servers && ReadBe32(data[12..16]) == domains
  {
    var data := Header(servers, domains) + records;
    assert |MAGIC| == 8;
    assert data[8..12] == Be32(servers) && data[12..16] == Be32(domains);
    Be32RoundTrip(servers);
    Be32RoundTrip(domains);
  }

  lemma ReadHeader(data: string)
    requires |data| >= HEADER_SIZE && IsBytes(data) && data[..8] == MAGIC
    ensures data == Header(ReadBe32(data[8..12]), ReadBe32(data[12..16])) + data[16..]
  {
    Be32Unique(data[8..12]);
    Be32Unique(data[12..16]);
    assert data == data[..8] + data[8..12] + data[12..16] + data[16..];
  }

  lemma EncodedDecodes(dns: DnsConfig)
    requires MeasureOf(dns).MeasureOk?
    ensures Decode(Encode(dns)) == Some(dns)
  {
    hide IsDomain;
    MeasureIsExact(dns);
    ServersLength(dns.servers);
    DomainsLength(dns.domains);
    var records := EncodeServers(dns.servers) + EncodeDomains(dns.domains);
    ConcatAssociates(Header(|dns.servers|, |dns.domains|), EncodeServers(dns.servers), EncodeDomains(dns.domains));
    HeaderRead(|dns.servers|, |dns.domains|, records);
    ServersDecode(dns.servers, EncodeDomains(dns.domains));
    DomainsDecode(dns.domains, []);
    assert EncodeDomains(dns.domains) + [] == EncodeDomains(dns.domains);
  }

  lemma DecodedEncodes(data: string)
    requires IsBytes(data) && Decode(data).Some?
    ensures MeasureOf(Decode(data).value).MeasureOk? && Encode(Decode(data).value) == data
  {
    hide IsDomain;
    var dns := Decode(data).value;
    ReadHeader(data);
    DecodedServers(data[16..], ReadBe32(data[8..12]));
    var (servers, rest) := DecodeServers(data[16..], ReadBe32(data[8..12])).value;
    DecodedDomains(rest, ReadBe32(data[12..16]));
    DecodedDomainsOk(rest, ReadBe32(data[12..16]));
    assert rest == EncodeDomains(dns.domains) + [] == EncodeDomains(dns.domains);
    ConcatAssociates(Header(|dns.servers|, |dns.domains|), EncodeServers(dns.servers), EncodeDomains(dns.domains));
    MeasureIsExact(dns);
  }

  /** The payloads that parse are exactly the encodings of the configurations that
      measure: each side of the codec undoes the other. */
  lemma PayloadRoundTrip(data: string, dns: DnsConfig)
    requires IsBytes(data)
    ensures Decode(data) == Some(dns) <==> MeasureOf(dns).MeasureOk? && Encode(dns) == data
  {
    if Decode(data) == Some(dns) {
      DecodedEncodes(data);
    }
    if MeasureOf(dns).MeasureOk? {
      EncodedDecodes(dns);
    }
  }

  lemma ServersStep(done: seq<DnsServer>, data: string, count: nat)
    requires count > 0
    ensures var first := DecodeServer(data);
            After(done, DecodeServers(data, count))
            == if first.Some? then After(done + [first.value.0], DecodeServers(first.value.1, count - 1)) else None
  {
    var first := DecodeServer(data);
    if first.Some? {
      AfterOneMore(done, first.value.0, DecodeServers(first.value.1, count - 1));
    }
  }

  lemma NoneLeft(data: string)
    ensures DecodeServers(data, 0) == Some(([], data)) && DecodeDomains(data, 0) == Some(([], data))
  {
  }

  lemma DomainsStep(done: seq<string>, data: string, count: nat)
    requires count > 0
    ensures var first := DecodeDomain(data);
            After(done, DecodeDomains(data, count))
            == if first.Some? then After(done + [first.value.0], DecodeDomains(first.value.1, count - 1)) else None
  {
    var first := DecodeDomain(data);
    if first.Some? {
      AfterOneMore(done, first.value.0, DecodeDomains(first.value.1, count - 1));
    }
  }

  /** One server at an offset, and the offset after it. */
  method ParseServer(data: string, offset: nat) returns (r: Option<(DnsServer, nat)>)
    requires offset <= |data|
    ensures r.None? ==> DecodeServer(data[offset..]).None?
    ensures r.Some? ==>
              offset < r.value.1 <= |data| && DecodeServer(data[offset..]) == Some((r.value.0, data[r.value.1..]))
  {
    if offset >= |data| {
      return None;
    }
    var family := TagFamily(data[offset]);
    var length := AddressLength(family);
    if length == 0 || length > |data| - offset - 1 {
      return None;
    }
    var address := data[offset + 1..offset + 1 + length];
    assert data[offset..][1..1 + length] == address && data[offset..][1 + length..] == data[offset + 1 + length..];
    r := Some((DnsServer(family, address), offset + 1 + length));
  }

  method ParseServers(data: string, start: nat, count: nat) returns (r: Option<(seq<DnsServer>, nat)>)
    requires start <= |data|
    ensures r.None? ==> DecodeServers(data[start..], count).None?
    ensures r.Some? ==>
              r.value.1 <= |data| && DecodeServers(data[start..], count) == Some((r.value.0, data[r.value.1..]))
  {
    hide DecodeServer;
    var offset, parsed := start, [];
    ghost var whole := DecodeServers(data[start..], count);
    AfterNothing(whole);
    for i := 0 to count
      invariant start <= offset <= |data|
      invariant whole == After(parsed, DecodeServers(data[offset..], count - i))
    {
      ServersStep(parsed, data[offset..], count - i);
      var server := ParseServer(data, offset);
      if server.None? {
        return None;
      }
      parsed := parsed + [server.value.0];
      offset := server.value.1;
    }
    NoneLeft(data[offset..]);
    assert parsed + [] == parsed;
    r := Some((parsed, offset));
  }

  /** The length a domain record announces at an offset, if it may be right. */
  function AnnouncedLength(data: string, offset: nat): (n: nat)
    requires offset <= |data|
    ensures n > 0 ==> offset + 4 + n <= |data|
  {
    if |data| - offset < 4 then 0
    else
      var n := ReadBe32(data[offset..offset + 4]);
      if n > MAX_DOMAIN || n > |data| - offset - 4 then 0 else n
  }

  lemma DomainAt(data: string, offset: nat)
    requires offset <= |data|
    ensures var n := AnnouncedLength(data, offset);
            DecodeDomain(data[offset..])
            == if n > 0 && IsDomain(data[offset + 4..offset + 4 + n])
               then Some((data[offset + 4..offset + 4 + n], data[offset + 4 + n..])) else None
  {
    hide IsDomain;
    var rest := data[offset..];
    if |rest| >= 4 {
      assert rest[..4] == data[offset..offset + 4];
      var n := ReadBe32(rest[..4]);
      if n <= |rest| - 4 {
        assert rest[4..4 + n] == data[offset + 4..offset + 4 + n] && rest[4 + n..] == data[offset + 4 + n..];
      }
    }
  }

  /** One domain at an offset, and the offset after it. */
  method ParseDomain(data: string, offset: nat) returns (r: Option<(string, nat)>)
    requires offset <= |data|
    ensures r.None? ==> DecodeDomain(data[offset..]).None?
    ensures r.Some? ==>
              offset < r.value.1 <= |data| && DecodeDomain(data[offset..]) == Some((r.value.0, data[r.value.1..]))
  {
    hide IsDomain;
    DomainAt(data, offset);
    var length := AnnouncedLength(data, offset);
    if length == 0 {
      return None;
    }
    var ok := ValueIsDomain(data[offset + 4..offset + 4 + length]);
    r := if ok then Some((data[offset + 4..offset + 4 + length], offset + 4 + length)) else None;
  }

  method ParseDomains(data: string, start: nat, count: nat) returns (r: Option<(seq<string>, nat)>)
    requires start <= |data|
    ensures r.None? ==> DecodeDomains(data[start..], count).None?
    ensures r.Some? ==>
              r.value.1 <= |data| && DecodeDomains(data[start..], count) == Some((r.value.0, data[r.value.1..]))
  {
    hide DecodeDomain;
    var offset, parsed := start, [];
    ghost var whole := DecodeDomains(data[start..], count);
    AfterNothing(whole);
    for i := 0 to count
      invariant start <= offset <= |data|
      invariant whole == After(parsed, DecodeDomains(data[offset..], count - i))
    {
      DomainsStep(parsed, data[offset..], count - i);
      var domain := ParseDomain(data, offset);
      if domain.None? {
        return None;
      }
      parsed := parsed + [domain.value.0];
      offset := domain.value.1;
    }
    NoneLeft(data[offset..]);
    assert parsed + [] == parsed;
    r := Some((parsed, offset));
  }

  method Parse(data: string) returns (r: Option<DnsConfig>)
    ensures r == Decode(data)
  {
    if |data| < HEADER_SIZE || |data| > MAX_DNS_PAYLOAD || data[..8] != MAGIC {
      return None;
    }
    var serverCount, domainCount := ReadBe32(data[8..12]), ReadBe32(data[12..16]);
    if serverCount > |data| || domainCount > |data| || (domainCount > 0 && serverCount == 0) {
      return None;
    }
    var servers := ParseServers(data, HEADER_SIZE, serverCount);
    if servers.None? {
      return None;
    }
    var domains := ParseDomains(data, servers.value.1, domainCount);
    if domains.None? || domains.value.1 != |data| {
      return None;
    }
    r := Some(DnsConfig(servers.value.0, domains.value.0));
  }
}
