/**
 * The client-side key-value store (lib/storage.ts): the `storage` helper
 * over the browser's localStorage, for the keys auth_token, user_role and
 * current_session_id. Every helper does nothing (and reads null) when there
 * is no window, as during server-side rendering.
 */
module ClientStorage {
  import opened Wrappers
  import opened JsValue

  const TokenKey := "auth_token"
  const RoleKey := "user_role"
  const SessionIdKey := "current_session_id"

  /** One state-changing call on the `storage` helper. localStorage keeps strings, so each value is coerced with String(). */
  datatype StorageCall =
    | WriteToken(token: Value)
    | RemoveToken
    | WriteRole(role: Value)
    | WriteSessionId(sessionId: Value)
    | RemoveSessionId

  /** The one key a call touches. */
  function KeyOf(call: StorageCall): string {
    match call
    case WriteToken(_) => TokenKey
    case RemoveToken => TokenKey
    case WriteRole(_) => RoleKey
    case WriteSessionId(_) => SessionIdKey
    case RemoveSessionId => SessionIdKey
  }

  /** localStorage.getItem: null for a missing key. */
  function Lookup(items: map<string, string>, key: string): Option<string> {
    if key in items then Some(items[key]) else None
  }

  /** A getItem result as a JavaScript value: the stored string, or null. */
  function ItemValue(item: Option<string>): (v: Value)
    ensures Truthy(v) <==> item.Some? && item.value != ""
  {
    match item
    case Some(s) => Str(s)
    case None => Null
  }

  /** What a getter of the helper reads. */
  function Read(hasWindow: bool, items: map<string, string>, key: string): (r: Option<string>)
    ensures r.Some? <==> hasWindow && key in items
    ensures r.Some? ==> r.value == items[key]
  {
    if hasWindow then Lookup(items, key) else None
  }

  /** localStorage after one helper call. */
  function Apply(hasWindow: bool, items: map<string, string>, call: StorageCall): (r: map<string, string>)
    ensures !hasWindow ==> r == items
    ensures hasWindow ==> (KeyOf(call) in r <==> !call.RemoveToken? && !call.RemoveSessionId?)
    ensures r.Keys - {KeyOf(call)} == items.Keys - {KeyOf(call)}
  {
    if !hasWindow then items
    else match call
      case WriteToken(t) => items[TokenKey := ToStr(t)]
      case RemoveToken => items - {TokenKey}
      case WriteRole(r) => items[RoleKey := ToStr(r)]
      case WriteSessionId(s) => items[SessionIdKey := ToStr(s)]
      case RemoveSessionId => items - {SessionIdKey}
  }

  /** localStorage after a sequence of helper calls, first to last. */
  function Run(hasWindow: bool, items: map<string, string>, calls: seq<StorageCall>): map<string, string>
    decreases |calls|
  {
    if calls == [] then items else Run(hasWindow, Apply(hasWindow, items, calls[0]), calls[1..])
  }

  /** With a window, a getter returns what the matching setter wrote last (as a string). */
  lemma ReadAfterWrite(items: map<string, string>, v: Value)
    ensures Read(true, Apply(true, items, WriteToken(v)), TokenKey) == Some(ToStr(v))
    ensures Read(true, Apply(true, items, WriteRole(v)), RoleKey) == Some(ToStr(v))
    ensures Read(true, Apply(true, items, WriteSessionId(v)), SessionIdKey) == Some(ToStr(v))
  {
  }

  /** A string written is read back unchanged. */
  lemma ReadAfterWriteString(items: map<string, string>, s: string)
    ensures Read(true, Apply(true, items, WriteToken(Str(s))), TokenKey) == Some(s)
    ensures Read(true, Apply(true, items, WriteRole(Str(s))), RoleKey) == Some(s)
    ensures Read(true, Apply(true, items, WriteSessionId(Str(s))), SessionIdKey) == Some(s)
  {
  }

  /** After a clear the matching getter reads null, and clearing twice is clearing once. */
  lemma ClearIsIdempotent(hasWindow: bool, items: map<string, string>)
    ensures Read(hasWindow, Apply(hasWindow, items, RemoveToken), TokenKey) == None
    ensures Read(hasWindow, Apply(hasWindow, items, RemoveSessionId), SessionIdKey) == None
    ensures Apply(hasWindow, Apply(hasWindow, items, RemoveToken), RemoveToken) == Apply(hasWindow, items, RemoveToken)
    ensures Apply(hasWindow, Apply(hasWindow, items, RemoveSessionId), RemoveSessionId) == Apply(hasWindow, items, RemoveSessionId)
  {
  }

  /** Every call touches only its own key. */
  lemma OtherKeysUnchanged(hasWindow: bool, items: map<string, string>, call: StorageCall, key: string)
    requires key != KeyOf(call)
    ensures Lookup(Apply(hasWindow, items, call), key) == Lookup(items, key)
  {
  }

  /** Without a window every getter reads null and every call leaves localStorage as it was. */
  lemma NoWindowIsInert(items: map<string, string>, calls: seq<StorageCall>, key: string)
    ensures Read(false, items, key) == None
    ensures Run(false, items, calls) == items
  {
  }

  /** The value of the last WriteRole in `calls`, if there is one. */
  function LastRoleWritten(calls: seq<StorageCall>): Option<Value>
    decreases |calls|
  {
    if calls == [] then None
    else match LastRoleWritten(calls[1..])
      case Some(r) => Some(r)
      case None => if calls[0].WriteRole? then Some(calls[0].role) else None
  }

  /**
   * No helper call removes user_role: after any sequence of calls it holds
   * what the last setRole wrote, or what it held before when there was none.
   */
  lemma {:induction false} RoleOnlyWrittenBySetRole(hasWindow: bool, items: map<string, string>, calls: seq<StorageCall>)
    requires hasWindow
    ensures Lookup(Run(hasWindow, items, calls), RoleKey)
         == match LastRoleWritten(calls)
            case Some(r) => Some(ToStr(r))
            case None => Lookup(items, RoleKey)
    decreases |calls|
  {
    if calls != [] {
      RoleOnlyWrittenBySetRole(hasWindow, Apply(hasWindow, items, calls[0]), calls[1..]);
    }
  }

  /** The browser's localStorage with the `storage` helper on top of it. */
  class Storage {
    /** Whether the code runs in a browser (`typeof window !== "undefined"`). */
    const hasWindow: bool
    var items: map<string, string>

    constructor(hasWindow: bool, items: map<string, string>)
      ensures this.hasWindow == hasWindow && this.items == items
    {
      this.hasWindow := hasWindow;
      this.items := items;
    }

    /** localStorage.getItem, as components call it directly. */
    method GetItem(key: string) returns (v: Option<string>)
      ensures v == Lookup(items, key)
    {
      v := if key in items then Some(items[key]) else None;
    }

    /** localStorage.removeItem, as components call it directly. */
    method RemoveItem(key: string)
      modifies this
      ensures items == old(items) - {key}
    {
      items := items - {key};
    }

    method GetToken() returns (v: Option<string>)
      ensures v == Read(hasWindow, items, TokenKey)
    {
      v := None;
      if hasWindow {
        v := GetItem(TokenKey);
      }
    }

    method SetToken(token: Value)
      modifies this
      ensures items == Apply(hasWindow, old(items), WriteToken(token))
    {
      if hasWindow {
        items := items[TokenKey := ToStr(token)];
      }
    }

    method ClearToken()
      modifies this
      ensures items == Apply(hasWindow, old(items), RemoveToken)
    {
      if hasWindow {
        RemoveItem(TokenKey);
      }
    }

    method GetRole() returns (v: Option<string>)
      ensures v == Read(hasWindow, items, RoleKey)
    {
      v := None;
      if hasWindow {
        v := GetItem(RoleKey);
      }
    }

    method SetRole(role: Value)
      modifies this
      ensures items == Apply(hasWindow, old(items), WriteRole(role))
    {
      if hasWindow {
        items := items[RoleKey := ToStr(role)];
      }
    }

    method GetSessionId() returns (v: Option<string>)
      ensures v == Read(hasWindow, items, SessionIdKey)
    {
      v := None;
      if hasWindow {
        v := GetItem(SessionIdKey);
      }
    }

    method SetSessionId(sessionId: Value)
      modifies this
      ensures items == Apply(hasWindow, old(items), WriteSessionId(sessionId))
    {
      if hasWindow {
        items := items[SessionIdKey := ToStr(sessionId)];
      }
    }

    method ClearSessionId()
      modifies this
      ensures items == Apply(hasWindow, old(items), RemoveSessionId)
    {
      if hasWindow {
        RemoveItem(SessionIdKey);
      }
    }
  }
}
