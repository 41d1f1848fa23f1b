/** The guest list (components/wedding/guest-list.tsx): turning stored RSVP answers into
    guests, the search and status filter, the summary counts and the CSV export. The
    answers are the records `RsvpModal` appends; reading them from local storage and the
    file download are not modelled. */
module GuestList {
  import opened Wrappers
  import opened TextUtil
  import opened RsvpModal

  datatype GuestStatus = Confirmed | Declined | Pending

  datatype Guest = Guest(
    id: string, name: string, phone: string, status: GuestStatus, guestCount: int,
    dietaryPreference: string, seatPreference: string, message: Option<string>, submittedAt: int)

  /** The four sample guests, timestamped relative to the time the module loaded. */
  function MockGuests(loadTime: int): (r: seq<Guest>)
    ensures |r| == 4
  {
    [ Guest("1", "王叔叔", "138****1234", Confirmed, 4, "无特殊要求", "front", Some("祝新人百年好合！"), loadTime - 86400000),
      Guest("2", "李阿姨", "139****5678", Confirmed, 2, "素食", "middle", None, loadTime - 172800000),
      Guest("3", "张伯伯", "136****9012", Confirmed, 2, "无特殊要求", "front", Some("早生贵子！"), loadTime - 259200000),
      Guest("4", "刘姨", "135****3456", Pending, 1, "无特殊要求", "no-preference", None, loadTime - 43200000) ]
  }

  // ---------------------------------------------------------------- phone masking

  /** Eleven ASCII digits start at `i`. */
  predicate DigitRunAt(s: string, i: int) {
    0 <= i && i + 11 <= |s| && forall k :: i <= k < i + 11 ==> IsAsciiDigit(s[k])
  }

  /** The leftmost position where eleven digits start, searching from `from`. */
  function FirstRun(s: string, from: nat): (r: Option<nat>)
    decreases |s| - from
    ensures r.Some? ==> from <= r.value && DigitRunAt(s, r.value) && forall j :: from <= j < r.value ==> !DigitRunAt(s, j)
    ensures r.None? ==> forall j :: from <= j ==> !DigitRunAt(s, j)
  {
    if from + 11 > |s| then None
    else if DigitRunAt(s, from) then Some(from)
    else FirstRun(s, from + 1)
  }

  /** `phone.replace(/(\d{3})\d{4}(\d{4})/, "$1****$2")`: only the first match is replaced. */
  function MaskPhone(phone: string): (r: string)
    ensures |r| == |phone|
    ensures FirstRun(phone, 0).None? ==> r == phone
    ensures FirstRun(phone, 0).Some? ==>
              var i := FirstRun(phone, 0).value;
              forall k :: 0 <= k < |r| ==> r[k] == if i + 3 <= k < i + 7 then '*' else phone[k]
  {
    match FirstRun(phone, 0)
    case None => phone
    case Some(i) => phone[..i + 3] + "****" + phone[i + 7..]
  }

  /** A phone the RSVP form accepts keeps its first three and last four digits. */
  lemma MaskValidPhone(phone: string)
    requires PhonePattern(phone)
    ensures MaskPhone(phone) == phone[..3] + "****" + phone[7..]
  {
    assert DigitRunAt(phone, 0);
  }

  /** A masked eleven-digit number has no run left to mask, so masking it again changes nothing. */
  lemma MaskTwiceIsMaskOnce(phone: string)
    requires |phone| == 11 && DigitRunAt(phone, 0)
    ensures MaskPhone(MaskPhone(phone)) == MaskPhone(phone)
  {
    var m := MaskPhone(phone);
    assert m[3] == '*';
    assert !DigitRunAt(m, 0);
    assert FirstRun(m, 0).None?;
  }

  // ---------------------------------------------------------------- mapping answers to guests

  function StatusOf(attendStatus: string): (r: GuestStatus)
    ensures r == Confirmed <==> attendStatus == "attending"
    ensures r == Declined <==> attendStatus == "not-attending"
    ensures r == Pending <==> attendStatus != "attending" && attendStatus != "not-attending"
  {
    if attendStatus == "attending" then Confirmed
    else if attendStatus == "not-attending" then Declined
    else Pending
  }

  function DietLabel(pref: string): string {
    if pref == "none" then "无特殊要求"
    else if pref == "vegetarian" then "素食"
    else if pref == "halal" then "清真"
    else "其他"
  }

  /** The three known preferences get their labels and anything else is "other"; only
      "vegetarian" is labelled vegetarian. */
  lemma DietLabels(pref: string)
    ensures DietLabel("none") == "无特殊要求" && DietLabel("vegetarian") == "素食" && DietLabel("halal") == "清真"
    ensures pref !in {"none", "vegetarian", "halal"} ==> DietLabel(pref) == "其他"
    ensures DietLabel(pref) == "素食" <==> pref == "vegetarian"
  {
  }

  /** `r.guestCount || 1`: zero becomes one and every other number is kept. */
  function CountOrOne(c: int): (r: int)
    ensures c == 0 ==> r == 1
    ensures c != 0 ==> r == c
  {
    if c == 0 then 1 else c
  }

  /** The guest made from the answer at index `i`. */
  function ToGuest(r: RsvpRecord, i: nat): (g: Guest)
    ensures g.id == "rsvp_" + NatToString(i) && g.name == r.name && g.phone == MaskPhone(r.phone)
    ensures g.status == StatusOf(r.attendStatus) && g.guestCount == CountOrOne(r.guestCount)
    ensures g.dietaryPreference == DietLabel(r.dietaryPreference) && g.seatPreference == "no-preference"
    ensures g.message == Some(r.message) && g.submittedAt == r.submittedAt
  {
    Guest("rsvp_" + NatToString(i), r.name, MaskPhone(r.phone), StatusOf(r.attendStatus),
          CountOrOne(r.guestCount), DietLabel(r.dietaryPreference), "no-preference",
          Some(r.message), r.submittedAt)
  }

  /** `setGuests([...rsvpGuests, ...mockGuests])`. */
  function LoadGuests(records: seq<RsvpRecord>, loadTime: int): (r: seq<Guest>)
    ensures |r| == |records| + 4
    ensures forall i :: 0 <= i < |records| ==> r[i] == ToGuest(records[i], i)
    ensures r[|records|..] == MockGuests(loadTime)
  {
    seq(|records|, (i: int) requires 0 <= i < |records| => ToGuest(records[i], i)) + MockGuests(loadTime)
  }

  /** Every loaded guest has its own id: the answers' ids differ by index, and none of them
      is a sample guest's id. */
  lemma LoadedIdsDistinct(records: seq<RsvpRecord>, loadTime: int)
    ensures var gs := LoadGuests(records, loadTime);
            forall i, j :: 0 <= i < j < |gs| ==> gs[i].id != gs[j].id
  {
    var gs := LoadGuests(records, loadTime);
    var n := |records|;
    forall i, j | 0 <= i < j < |gs| ensures gs[i].id != gs[j].id {
      if j < n {
        var a, b := NatToString(i), NatToString(j);
        assert a != b by {
          assert DecimalValue(a) != DecimalValue(b);
        }
        assert gs[i].id[5..] == a && gs[j].id[5..] == b;
      } else if i < n {
        assert gs[i].id[0] == 'r';
        assert |gs[j].id| == 1 && gs[j].id[0] != 'r';
      }
    }
  }

  // ---------------------------------------------------------------- filter and stats

  datatype FilterStatus = All | Only(status: GuestStatus)

  /** The search and status test of `filteredGuests`. */
  predicate Matches(g: Guest, query: string, filter: FilterStatus) {
    Contains(Lower(g.name), Lower(query)) && (filter.All? || g.status == filter.status)
  }

  function FilterGuests(guests: seq<Guest>, query: string, filter: FilterStatus): (r: seq<Guest>)
    ensures |r| <= |guests|
  {
    if guests == [] then []
    else if Matches(guests[0], query, filter) then [guests[0]] + FilterGuests(guests[1..], query, filter)
    else FilterGuests(guests[1..], query, filter)
  }

  /** The filter keeps exactly the matching guests ... */
  lemma {:induction false} FilterMembers(guests: seq<Guest>, query: string, filter: FilterStatus)
    ensures forall g :: g in FilterGuests(guests, query, filter) ==> g in guests && Matches(g, query, filter)
    ensures forall g :: g in guests && Matches(g, query, filter) ==> g in FilterGuests(guests, query, filter)
  {
    if guests != [] {
      FilterMembers(guests[1..], query, filter);
      assert forall g :: g in guests ==> g == guests[0] || g in guests[1..];
    }
  }

  /** ... in their list order: it distributes over concatenation. */
  lemma {:induction false} FilterAppend(a: seq<Guest>, b: seq<Guest>, query: string, filter: FilterStatus)
    ensures FilterGuests(a + b, query, filter) == FilterGuests(a, query, filter) + FilterGuests(b, query, filter)
  {
    if a == [] {
      assert a + b == b;
    } else {
      assert (a + b)[0] == a[0] && (a + b)[1..] == a[1..] + b;
      FilterAppend(a[1..], b, query, filter);
    }
  }

  /** An empty search with "all" keeps the whole list. */
  lemma {:induction false} EmptyQueryKeepsAll(guests: seq<Guest>)
    ensures FilterGuests(guests, "", All) == guests
  {
    if guests != [] {
      ContainsEmpty(Lower(guests[0].name));
      EmptyQueryKeepsAll(guests[1..]);
      assert [guests[0]] + guests[1..] == guests;
    }
  }

  function CountStatus(guests: seq<Guest>, s: GuestStatus): nat {
    if guests == [] then 0 else (if guests[0].status == s then 1 else 0) + CountStatus(guests[1..], s)
  }

  /** The sum of `guestCount` over the confirmed guests. */
  function ConfirmedHeads(guests: seq<Guest>): int {
    if guests == [] then 0
    else (if guests[0].status == Confirmed then guests[0].guestCount else 0) + ConfirmedHeads(guests[1..])
  }

  function ConfirmedVegetarian(guests: seq<Guest>): nat {
    if guests == [] then 0
    else (if guests[0].status == Confirmed && guests[0].dietaryPreference == "素食" then 1 else 0)
         + ConfirmedVegetarian(guests[1..])
  }

  datatype Stats = Stats(total: nat, confirmed: nat, declined: nat, pending: nat, totalGuests: int, vegetarian: nat)

  function GetStats(guests: seq<Guest>): Stats {
    Stats(|guests|, CountStatus(guests, Confirmed), CountStatus(guests, Declined),
          CountStatus(guests, Pending), ConfirmedHeads(guests), ConfirmedVegetarian(guests))
  }

  /** Every guest has exactly one status, only confirmed guests are counted as vegetarian,
      and with positive counts every confirmed guest adds at least one head. */
  lemma {:induction false} StatsAddUp(guests: seq<Guest>)
    ensures var st := GetStats(guests);
            && st.confirmed + st.declined + st.pending == st.total
            && st.vegetarian <= st.confirmed
            && ((forall k :: 0 <= k < |guests| ==> guests[k].guestCount >= 1) ==> st.totalGuests >= st.confirmed)
  {
    if guests != [] {
      StatsAddUp(guests[1..]);
      assert forall k :: 0 <= k < |guests[1..]| ==> guests[1..][k] == guests[k + 1];
    }
  }

  // ---------------------------------------------------------------- CSV

  const Bom := "\U{FEFF}"
  const Headers: seq<string> := ["姓名", "电话", "状态", "人数", "饮食偏好", "留言"]
  /** `headers.join(",")`, written out; `HeaderLineIsJoin` checks it. */
  const HeaderLine := "姓名,电话,状态,人数,饮食偏好,留言"

  lemma HeaderLineIsJoin()
    ensures Join(Headers, ",") == HeaderLine
  {
    assert Join(Headers[5..], ",") == "留言";
    assert Join(Headers[4..], ",") == "饮食偏好,留言";
    assert Join(Headers[3..], ",") == "人数,饮食偏好,留言";
    assert Join(Headers[2..], ",") == "状态,人数,饮食偏好,留言";
    assert Join(Headers[1..], ",") == "电话,状态,人数,饮食偏好,留言";
  }

  function StatusLabel(s: GuestStatus): string {
    match s
    case Confirmed => "已确认"
    case Declined => "已谢绝"
    case Pending => "待定"
  }

  /** `Number.prototype.toString` for integers. */
  function IntToString(n: int): string {
    if n < 0 then "-" + NatToString(-n) else NatToString(n)
  }

  /** One guest's fields; `g.message || ""` turns a missing message into "". */
  function Row(g: Guest): (r: seq<string>)
    ensures |r| == |Headers|
  {
    [g.name, g.phone, StatusLabel(g.status), IntToString(g.guestCount), g.dietaryPreference, g.message.GetOr("")]
  }

  /** One line per guest, in list order: its fields joined by "," with no quoting. */
  function RowLines(guests: seq<Guest>): (r: seq<string>)
    ensures |r| == |guests|
    ensures forall i :: 0 <= i < |guests| ==> r[i] == Join(Row(guests[i]), ",")
  {
    if guests == [] then []
    else RowLines(guests[..|guests| - 1]) + [Join(Row(guests[|guests| - 1]), ",")]
  }

  /** The lines of the file: the header and then the guests' lines. */
  function CsvLines(guests: seq<Guest>): (lines: seq<string>)
    ensures |lines| == |guests| + 1
    ensures lines[0] == HeaderLine
    ensures forall i :: 0 <= i < |guests| ==> lines[i + 1] == Join(Row(guests[i]), ",")
  {
    [HeaderLine] + RowLines(guests)
  }

  /** The downloaded text: the byte-order mark, then the lines joined by newlines. */
  function Csv(guests: seq<Guest>): (r: string)
    ensures |r| >= 1 && r[0] == '\U{FEFF}' && r[1..] == Join(CsvLines(guests), "\n")
  {
    Bom + Join(CsvLines(guests), "\n")
  }

  /** Exporting one more guest adds exactly one line at the end. */
  lemma CsvAppendsLine(guests: seq<Guest>, g: Guest)
    ensures Csv(guests + [g]) == Csv(guests) + "\n" + Join(Row(g), ",")
  {
    var last := Join(Row(g), ",");
    assert (guests + [g])[..|guests|] == guests;
    assert CsvLines(guests + [g]) == CsvLines(guests) + [last];
    JoinAppend(CsvLines(guests), last, "\n");
  }
}
