/** The browser capabilities the client code relies on, reduced to values
    (payloads, replies) and two small stateful registries: object URLs and
    local storage. Network calls, device prompts and timers are not modelled
    here; their outcomes reach the model as parameters. */
module Platform {

  datatype Option<+T> = None | Some(value: T)

  /** A binary payload: its bytes and its declared MIME type. */
  datatype Blob = Blob(data: seq<bv8>, mimeType: string) {
    function Size(): nat { |data| }
  }

  /** A file picked by the user: a blob that also carries a file name. */
  datatype File = File(name: string, mimeType: string, data: seq<bv8>) {
    function AsBlob(): (b: Blob)
      ensures b.data == data && b.mimeType == mimeType
    {
      Blob(data, mimeType)
    }
  }

  /** How one awaited `fetch` ends: a response whose `ok` flag is set, a
      response without it, or a rejected promise. A rejection carries
      Some(message) when the thrown value is an Error and None otherwise. */
  datatype Reply = Ok | NotOk | Thrown(message: Option<string>)

  /** An object URL created for a blob; the registry hands out fresh numbers. */
  type ObjectUrl = nat

  /** The object URLs an optional handle stands for, as a list and as a set. */
  function UrlList(o: Option<ObjectUrl>): seq<ObjectUrl>
  {
    if o.Some? then [o.value] else []
  }

  function UrlSet(o: Option<ObjectUrl>): set<ObjectUrl>
  {
    if o.Some? then {o.value} else {}
  }

  /** The page's object-URL table (`URL.createObjectURL` / `URL.revokeObjectURL`).
      `live` is the set of URLs created and not yet revoked; `revoked` records
      every revoke call in order, so a double release is visible. */
  class UrlRegistry {
    var next: nat
    ghost var live: set<ObjectUrl>
    ghost var revoked: seq<ObjectUrl>

    ghost predicate Valid()
      reads this
    {
      forall u :: u in live ==> u < next
    }

    constructor ()
      ensures Valid() && live == {} && revoked == []
    {
      next := 0;
      live := {};
      revoked := [];
    }

    method Create(b: Blob) returns (u: ObjectUrl)
      requires Valid()
      modifies this
      ensures Valid()
      ensures u == old(next) && next == old(next) + 1
      ensures u !in old(live) && live == old(live) + {u}
      ensures revoked == old(revoked)
    {
      u := next;
      next := next + 1;
      live := live + {u};
    }

    method Revoke(u: ObjectUrl)
      requires Valid()
      modifies this
      ensures Valid()
      ensures live == old(live) - {u} && revoked == old(revoked) + [u]
      ensures next == old(next)
    {
      live := live - {u};
      revoked := revoked + [u];
    }
  }

  /** `window.localStorage`: string keys to string values. */
  class LocalStorage {
    var items: map<string, string>

    constructor (initial: map<string, string>)
      ensures items == initial
    {
      items := initial;
    }

    method GetItem(key: string) returns (v: Option<string>)
      ensures v == if key in items then Some(items[key]) else None
    {
      v := if key in items then Some(items[key]) else None;
    }

    method SetItem(key: string, value: string)
      modifies this
      ensures items == old(items)[key := value]
    {
      items := items[key := value];
    }
  }
}
