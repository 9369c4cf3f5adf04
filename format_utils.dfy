/**
 * The DVD-rental app's text helpers: cutting a text to a maximum length with
 * an ellipsis, and writing the first eleven-digit run of a phone number as
 * ddd-dddd-dddd.
 */
module FormatUtils {
  import opened Wrappers
  import opened JsValues

  /** The maximum length used when none is given. */
  const DefaultMaxLength: int := 100

  /**
   * `truncateText(text, maxLength = 100)`: the text itself when it fits,
   * otherwise its first maxLength characters (none for a negative maximum,
   * as `substring` clamps) followed by "...". `maxLength` is None when the
   * caller leaves it out.
   */
  function TruncateText(text: string, maxLength: Option<int>): (r: string)
    ensures var m := if maxLength.Some? then maxLength.value else 100;
            |text| <= m ==> r == text
    ensures var m := if maxLength.Some? then maxLength.value else 100;
            var keep := if m < 0 then 0 else m;
            |text| > m ==> |r| == keep + 3 && r[..keep] == text[..keep] && r[keep..] == "..."
  {
    var m := maxLength.GetOr(DefaultMaxLength);
    if |text| <= m then text
    else text[..if m < 0 then 0 else m] + "..."
  }

  /** Truncating twice with the same maximum is truncating once. */
  lemma TruncateIdempotent(text: string, maxLength: Option<int>)
    ensures TruncateText(TruncateText(text, maxLength), maxLength) == TruncateText(text, maxLength)
  {
    var r := TruncateText(text, maxLength);
    var m := maxLength.GetOr(DefaultMaxLength);
    if |text| > m {
      var keep := if m < 0 then 0 else m;
      assert r[..keep] == text[..keep];
    }
  }

  /** The length of the number pattern: three, four and four digits. */
  const RunLength: nat := 11

  predicate RunAt(s: string, i: nat) {
    i + RunLength <= |s| && AllDigits(s[i..i + RunLength])
  }

  /**
   * The first position at or after `from` where eleven digits start, as the
   * regular-expression engine tries the positions left to right.
   */
  function FirstRunFrom(s: string, from: nat): (r: Option<nat>)
    ensures r.Some? ==> from <= r.value && RunAt(s, r.value)
                        && forall j :: from <= j < r.value ==> !RunAt(s, j)
    ensures r.None? ==> forall j :: from <= j ==> !RunAt(s, j)
    decreases |s| - from
  {
    if from + RunLength > |s| then None
    else if AllDigits(s[from..from + RunLength]) then Some(from)
    else FirstRunFrom(s, from + 1)
  }

  function FirstRun(s: string): (r: Option<nat>)
  {
    FirstRunFrom(s, 0)
  }

  /**
   * `formatPhone(phone)`: the leftmost eleven-digit run is written with a
   * dash after its third and seventh digit; everything else is kept.
   */
  function FormatPhone(phone: string): (r: string)
    ensures FirstRun(phone).None? ==> r == phone
    ensures FirstRun(phone).Some? ==> |r| == |phone| + 2
  {
    match FirstRun(phone)
    case None => phone
    case Some(i) =>
      phone[..i] + phone[i..i + 3] + "-" + phone[i + 3..i + 7] + "-" + phone[i + 7..i + 11] + phone[i + 11..]
  }

  /**
   * The two dashes sit after the third and seventh digit of the run, and
   * removing them gives back the input: only the dashes are added.
   */
  lemma FormatPhoneOnlyAddsDashes(phone: string)
    requires FirstRun(phone).Some?
    ensures var i, r := FirstRun(phone).value, FormatPhone(phone);
            r[..i] == phone[..i]
            && r[i + 3] == '-' && r[i + 8] == '-'
            && r[..i + 3] + r[i + 4..i + 8] + r[i + 9..] == phone
  {
    var i := FirstRun(phone).value;
    var r := FormatPhone(phone);
    var a, b, c, d := phone[i..i + 3], phone[i + 3..i + 7], phone[i + 7..i + 11], phone[i + 11..];
    assert r == phone[..i] + a + "-" + b + "-" + c + d;
    assert r[..i + 3] == phone[..i] + a;
    assert r[i + 4..i + 8] == b;
    assert r[i + 9..] == c + d;
    assert phone[..i + 3] == phone[..i] + a;
    assert phone[..i + 7] == phone[..i + 3] + b;
    assert phone[..i + 11] == phone[..i + 7] + c;
    assert phone == phone[..i + 11] + d;
  }

  /** A run that starts later than another is never the one rewritten. */
  lemma FormatPhoneLeftmost(phone: string, j: nat)
    requires RunAt(phone, j)
    ensures FirstRun(phone).Some? && FirstRun(phone).value <= j
  {
  }
}
