/** The key-state table `keys` (a JavaScript object from key name to
    "held") and the three handlers that write it. */
module Keys {

  type KeyTable = map<string, bool>

  /** The keys `keydownHandle` accepts (`validKeys`). */
  const ValidKeys: seq<string> := ["w", "a", "s", "d", "escape"]

  /** The four movement keys. */
  const MovementKeys: set<string> := {"w", "a", "s", "d"}

  /** The table as declared: the four movement keys, none held. */
  const Initial: KeyTable := map["w" := false, "a" := false, "s" := false, "d" := false]

  /** `String.prototype.toLowerCase` restricted to ASCII letters. */
  function LowerChar(c: char): (r: char)
    ensures 'A' <= c <= 'Z' ==> r as int == c as int + 32
    ensures !('A' <= c <= 'Z') ==> r == c
    ensures !('A' <= r <= 'Z')
  {
    if 'A' <= c <= 'Z' then (c as int + 32) as char else c
  }

  function ToLower(s: string): (r: string)
    ensures |r| == |s|
    ensures forall i :: 0 <= i < |s| ==> r[i] == LowerChar(s[i])
  {
    seq(|s|, i requires 0 <= i < |s| => LowerChar(s[i]))
  }

  /** Lower-casing twice is lower-casing once. */
  lemma ToLowerIdempotent(s: string)
    ensures ToLower(ToLower(s)) == ToLower(s)
  {
  }

  /** A JavaScript read `keys.k`: a missing entry is `undefined`, which is falsy. */
  predicate Held(keys: KeyTable, k: string)
  {
    k in keys && keys[k]
  }

  /** The table after `keydownHandle` sees key name `raw`. */
  function KeyDown(keys: KeyTable, raw: string): (r: KeyTable)
    ensures ToLower(raw) in MovementKeys ==> r == keys[ToLower(raw) := true]
    ensures ToLower(raw) !in MovementKeys ==> r == keys
  {
    var key := ToLower(raw);
    if key !in ValidKeys then keys
    else if key == "escape" then keys
    else keys[key := true]
  }

  /** The table after `keyupHandle` sees key name `raw`: that entry becomes
      false, added if it was missing, and nothing else changes. */
  function KeyUp(keys: KeyTable, raw: string): (r: KeyTable)
    ensures r.Keys == keys.Keys + {ToLower(raw)}
    ensures ToLower(raw) in r && !r[ToLower(raw)]
    ensures forall k :: k in keys && k != ToLower(raw) ==> r[k] == keys[k]
  {
    keys[ToLower(raw) := false]
  }

  /** The table after the window loses focus. */
  function Blur(keys: KeyTable): (r: KeyTable)
    ensures r.Keys == keys.Keys + MovementKeys
    ensures forall k :: k in MovementKeys ==> !Held(r, k)
    ensures forall k :: k in keys && k !in MovementKeys ==> r[k] == keys[k]
  {
    keys["w" := false]["a" := false]["s" := false]["d" := false]
  }

  /** Losing focus twice has the same effect as losing it once. */
  lemma BlurIdempotent(keys: KeyTable)
    ensures Blur(Blur(keys)) == Blur(keys)
  {
  }

  /** After a key is released, the handlers agree it is not held; a later
      press of a movement key holds it again whatever the case it was typed in. */
  lemma {:induction false} PressRelease(keys: KeyTable, raw: string, other: string)
    requires ToLower(other) == ToLower(raw)
    ensures !Held(KeyUp(KeyDown(keys, raw), other), ToLower(raw))
    ensures ToLower(raw) in MovementKeys <==> Held(KeyDown(KeyUp(keys, other), raw), ToLower(raw))
  {
  }

  /** The handlers never drop an entry: every table reached from the initial
      one still lists the four movement keys. */
  predicate HasMovementKeys(keys: KeyTable)
  {
    MovementKeys <= keys.Keys
  }

  lemma HandlersKeepMovementKeys(keys: KeyTable, raw: string)
    requires HasMovementKeys(keys)
    ensures HasMovementKeys(KeyDown(keys, raw))
    ensures HasMovementKeys(KeyUp(keys, raw))
    ensures HasMovementKeys(Blur(keys))
  {
  }
}
