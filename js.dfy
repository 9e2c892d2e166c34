/** JavaScript values as the element sees them, the events it fires, and the
    camelCase-to-hyphenated renaming of event names. */
module Js {

  /** The payloads the element stores and forwards. The tracking library's
      objects (device info, frames, gestures, protocols) are opaque to the
      element, so an object is only an identity; `EmptyObject` is a fresh `{}`
      made by a property default. JavaScript numbers are modelled as integers. */
  datatype JsValue =
    | Undefined
    | Null
    | Boolean(b: bool)
    | Number(n: int)
    | Str(s: string)
    | EmptyObject
    | Object(id: nat)

  /** The detail carried by a fired event. */
  datatype Detail =
    | NoDetail
    | Payload(value: JsValue)
    | GestureDetail(gesture: JsValue, frame: JsValue)
    | ProtocolDetail(protocol: JsValue, frame: JsValue)

  /** One call of the element's `fire(name, detail)`. */
  datatype Fired = Fired(name: string, detail: Detail)

  predicate IsUpper(c: char) {
    'A' <= c <= 'Z'
  }

  function ToLower(c: char): (r: char)
    requires IsUpper(c)
    ensures 'a' <= r <= 'z'
  {
    (c as int + 32) as char
  }

  /** The public spelling of one letter of a transport event name. */
  function Spell(c: char): string {
    if IsUpper(c) then ['-', ToLower(c)] else [c]
  }

  /** The public spelling of a transport event name: every capital letter
      becomes a hyphen followed by its lower-case letter
      (`deviceAttached` becomes `device-attached`). */
  function Hyphenate(s: string): string {
    if s == [] then [] else Spell(s[0]) + Hyphenate(s[1..])
  }

  /** A hyphenated name has no capital letters left. */
  lemma {:induction false} HyphenateLowersAll(s: string)
    ensures forall i :: 0 <= i < |Hyphenate(s)| ==> !IsUpper(Hyphenate(s)[i])
  {
    if s != [] {
      HyphenateLowersAll(s[1..]);
      var h, t := Spell(s[0]), Hyphenate(s[1..]);
      assert forall i :: 0 <= i < |h| ==> !IsUpper(h[i]);
      assert forall i :: 0 <= i < |h + t| ==> (h + t)[i] == if i < |h| then h[i] else t[i - |h|];
    }
  }

  /** A name without capitals is its own public spelling. */
  lemma {:induction false} HyphenateKeepsLowerCase(s: string)
    requires forall i :: 0 <= i < |s| ==> !IsUpper(s[i])
    ensures Hyphenate(s) == s
  {
    if s != [] {
      assert forall i :: 0 <= i < |s[1..]| ==> s[1..][i] == s[i + 1];
      HyphenateKeepsLowerCase(s[1..]);
      assert s == [s[0]] + s[1..];
    }
  }

  /** Renaming works letter by letter, so it distributes over concatenation. */
  lemma {:induction false} HyphenateAppend(a: string, b: string)
    ensures Hyphenate(a + b) == Hyphenate(a) + Hyphenate(b)
    decreases |a|
  {
    if a != [] {
      assert (a + b)[0] == a[0];
      assert (a + b)[1..] == a[1..] + b;
      HyphenateAppend(a[1..], b);
    } else {
      assert a + b == b;
    }
  }

  /** A name made of lower-case words joined by one capital letter. */
  lemma HyphenateOneCapital(head: string, c: char, tail: string)
    requires forall i :: 0 <= i < |head| ==> !IsUpper(head[i])
    requires forall i :: 0 <= i < |tail| ==> !IsUpper(tail[i])
    requires IsUpper(c)
    ensures Hyphenate(head + [c] + tail) == head + ['-', ToLower(c)] + tail
  {
    HyphenateAppend(head, [c] + tail);
    HyphenateKeepsLowerCase(head);
    HyphenateKeepsLowerCase(tail);
    assert ([c] + tail)[1..] == tail;
    assert head + [c] + tail == head + ([c] + tail);
  }
}
