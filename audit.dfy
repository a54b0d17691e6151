/** The audit stamps lib/insert.js and lib/update.js write into `options.set`: the
    current time under one key and, when the options carry a truthy `userId`, that
    `userId` under another. */
module Audit {
  import opened Js

  /** `set[atKey] = now` and, for a truthy `userId`, `set[byKey] = userId`. */
  function Stamp(s: Val, atKey: string, byKey: string, now: string, userId: Val): (r: Val)
    requires IsObject(s) && IndexKey(atKey).None? && IndexKey(byKey).None?
    ensures IsObject(r)
  {
    var a := SetProp(s, atKey, Str(now));
    if Truthy(userId) then SetProp(a, byKey, userId) else a
  }

  /** The two assignments, made in place on `options.set`. */
  method StampInto(options: JsObject, atKey: string, byKey: string, now: string)
    requires IsObject(options.Read("set")) && IndexKey(atKey).None? && IndexKey(byKey).None?
    modifies options
    ensures options.props ==
            PutProp(old(options.props), "set", Stamp(old(options.Read("set")), atKey, byKey, now, old(options.Read("userId"))))
  {
    ghost var d := options.props;
    var a := SetProp(options.Read("set"), atKey, Str(now));
    options.Put("set", a);
    LookupPutProp(d, "set", a, "userId");
    LookupPutProp(d, "set", a, "set");
    if Truthy(options.Read("userId")) {
      options.Put("set", SetProp(options.Read("set"), byKey, options.Read("userId")));
      PutPropOverwrite(d, "set", a, SetProp(a, byKey, Lookup(d, "userId")));
    }
  }

  /** The stamped object holds `now` under `atKey` (an own key from then on), `userId` under
      `byKey` exactly when `userId` is truthy, and every other property unchanged. */
  lemma StampSpec(s: Val, atKey: string, byKey: string, now: string, userId: Val, k: string)
    requires IsObject(s) && IndexKey(atKey).None? && IndexKey(byKey).None? && atKey != byKey
    ensures var r := Stamp(s, atKey, byKey, now, userId);
            Get(r, atKey) == Str(now) && atKey in Keys(OwnEntries(r)) &&
            (Truthy(userId) ==> Get(r, byKey) == userId) &&
            (!Truthy(userId) ==> Get(r, byKey) == Get(s, byKey)) &&
            (k != atKey && k != byKey ==> Get(r, k) == Get(s, k))
  {
    var a := SetProp(s, atKey, Str(now));
    SetPropGet(s, atKey, Str(now));
    SetPropKeys(s, atKey, Str(now), k);
    SetPropKeys(s, atKey, Str(now), byKey);
    SetPropGet(a, byKey, userId);
    SetPropKeys(a, byKey, userId, k);
    SetPropKeys(a, byKey, userId, atKey);
  }
}
