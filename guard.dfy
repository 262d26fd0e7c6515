/**
 * The dedupe map `read_context` (pagermaid/static) as the handlers use it:
 * a claim for `(chat id, message id)` made under `_lock` (pagermaid/listener.py:186-189,
 * 328-331) and the release in the `finally` block (lines 261-263). The lock
 * only makes the check-and-insert atomic, so each method here is one atomic step.
 */
module Guard {

  /** `(message.chat.id, message.id)`. */
  type Key = (int, int)

  class ReadContext {
    var entries: map<Key, bool>

    /** Every value ever stored is `True`. */
    ghost predicate Valid()
      reads this
    {
      forall k :: k in entries ==> entries[k]
    }

    constructor ()
      ensures Valid() && entries == map[]
    {
      entries := map[];
    }

    /** The check-and-insert: succeeds exactly when the key is absent, and then inserts it. */
    method Claim(key: Key) returns (claimed: bool)
      requires Valid()
      modifies this
      ensures Valid()
      ensures claimed <==> key !in old(entries)
      ensures entries == old(entries)[key := true]
    {
      if key in entries {
        claimed := false;
      } else {
        entries := entries[key := true];
        claimed := true;
      }
    }

    /** `if key in read_context: del read_context[key]`. */
    method Release(key: Key)
      requires Valid()
      modifies this
      ensures Valid()
      ensures entries == old(entries) - {key}
    {
      if key in entries {
        entries := entries - {key};
      }
    }
  }
}
