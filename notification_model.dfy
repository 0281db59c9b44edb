/** Notifications shown in the notifications tab (`NotificationType`, `Notification`). */
module NotificationModels {
  import opened Strings

  /** A point in time, as the caller's clock reports it (`Date()` is not modelled). */
  type Date = int

  /** `enum NotificationType` with its associated values. */
  datatype NotificationType =
    | PostLike(postName: string)
    | UserFollow(username: string)
    | PostComment(postName: string)

  /** `NotificationType.id`: one fixed name per case, whatever the associated value. */
  function TypeId(t: NotificationType): (id: string)
    ensures id == "postLike" <==> t.PostLike?
    ensures id == "userFollow" <==> t.UserFollow?
    ensures id == "postComment" <==> t.PostComment?
  {
    match t
    case PostLike(_) => "postLike"
    case UserFollow(_) => "userFollow"
    case PostComment(_) => "postComment"
  }

  /** Two notification types share an id exactly when they are the same case. */
  lemma TypeIdIdentifiesCase(a: NotificationType, b: NotificationType)
    ensures TypeId(a) == TypeId(b) <==>
      (a.PostLike? && b.PostLike?) || (a.UserFollow? && b.UserFollow?) || (a.PostComment? && b.PostComment?)
  {
  }

  /**
   * `class Notification`: a reference type whose `id`, `text`, `type` and
   * `date` never change; only `isHidden` is mutable. The UUID the source
   * draws for `id` is a constructor argument.
   */
  class Notification {
    const id: string
    var isHidden: bool
    const text: string
    const kind: NotificationType
    const date: Date

    constructor (id: string, text: string, kind: NotificationType, date: Date)
      ensures this.id == id && this.text == text && this.kind == kind && this.date == date
      ensures !isHidden
    {
      this.id := id;
      this.text := text;
      this.kind := kind;
      this.date := date;
      isHidden := false;
    }
  }

  const MockPostName: string := "vfcxvbbxv"

  /** The text of the `i`-th item of a mock group: "Something happened: i". */
  function MockText(i: nat): (text: string)
    ensures |text| > 20 && text[..20] == "Something happened: "
    ensures AllDigits(text[20..]) && DigitsValue(text[20..]) == i
    ensures |text| > 21 ==> text[20] != '0'
  {
    var text := "Something happened: " + NatToString(i);
    assert text[20..] == NatToString(i);
    NatToStringRoundTrip(i);
    text
  }

  /** One group of `mockData()`: six visible items of one kind, texts numbered 0 to 5. */
  ghost predicate IsMockGroup(group: seq<Notification>, kind: NotificationType)
    reads set n | n in group
  {
    && |group| == 6
    && forall k :: 0 <= k < 6 ==> group[k].kind == kind && group[k].text == MockText(k) && !group[k].isHidden
  }

  /** The shape of `mockData()`: comments, then follows, then likes, six of each. */
  ghost predicate IsMockData(ns: seq<Notification>)
    reads set n | n in ns
  {
    && |ns| == 18
    && IsMockGroup(ns[..6], PostComment(MockPostName))
    && IsMockGroup(ns[6..12], UserFollow(MockPostName))
    && IsMockGroup(ns[12..], PostLike(MockPostName))
  }

  /** One `Array(0...5).compactMap { Notification(...) }` of `mockData()`; ids and dates from `offset` on. */
  method MockGroup(kind: NotificationType, offset: nat, ids: nat -> string, dates: nat -> Date)
    returns (group: seq<Notification>)
    ensures IsMockGroup(group, kind)
    ensures forall i :: 0 <= i < 6 ==>
      fresh(group[i]) && group[i].id == ids(offset + i) && group[i].date == dates(offset + i)
    ensures forall i, j :: 0 <= i < j < 6 ==> group[i] != group[j]
  {
    group := [];
    for i := 0 to 6
      invariant |group| == i
      invariant forall k :: 0 <= k < i ==>
        && fresh(group[k])
        && group[k].id == ids(offset + k) && group[k].date == dates(offset + k)
        && group[k].kind == kind && group[k].text == MockText(k)
        && !group[k].isHidden
      invariant forall k, l :: 0 <= k < l < i ==> group[k] != group[l]
    {
      var n := new Notification(ids(offset + i), MockText(i), kind, dates(offset + i));
      group := group + [n];
    }
  }

  /**
   * `Notification.mockData()`: 18 new, distinct notifications: six
   * comments, then six follows, then six likes. Ids and dates are drawn
   * from `ids` and `dates` in list order.
   */
  method MockData(ids: nat -> string, dates: nat -> Date) returns (ns: seq<Notification>)
    ensures IsMockData(ns)
    ensures forall i :: 0 <= i < |ns| ==> fresh(ns[i]) && ns[i].id == ids(i) && ns[i].date == dates(i)
    ensures forall i, j :: 0 <= i < j < |ns| ==> ns[i] != ns[j]
  {
    var first := MockGroup(PostComment(MockPostName), 0, ids, dates);
    var second := MockGroup(UserFollow(MockPostName), 6, ids, dates);
    var third := MockGroup(PostLike(MockPostName), 12, ids, dates);
    ns := first + second + third;
    assert ns[..6] == first && ns[6..12] == second && ns[12..] == third;
    forall i | 0 <= i < 18
      ensures ns[i] == if i < 6 then first[i] else if i < 12 then second[i - 6] else third[i - 12]
    {
    }
  }
}
