/**
 * The two state hooks of the dashboard: a setting cell kept in the
 * browser's local storage (`useLocalStorage`) and the single-message
 * snackbar (`SnackbarProvider`).
 */
module Hooks {
  import opened Wrappers

  /** What `localStorage.getItem(key)` gives: an exception (storage
      disabled or refused), `null` for a missing key, or the stored text. */
  datatype Read = Threw | Missing | Item(text: string)

  /** `JSON.stringify` and `JSON.parse` at one value type. `decode` is
      `None` where `JSON.parse` throws on malformed text; well-formed JSON
      of another type has no place in `T` and is left out. */
  datatype Codec<!T> = Codec(encode: T -> string, decode: string -> Option<T>)

  /** `v` is a value the codec can represent: its text is a non-empty JSON
      text that decodes back to `v` (every text `JSON.stringify` produces
      for such a value is non-empty). */
  predicate Represents<T(==)>(codec: Codec<T>, v: T) {
    codec.encode(v) != "" && codec.decode(codec.encode(v)) == Some(v)
  }

  /** The browser's `localStorage`: text items by key. `readable` and
      `writable` false stand for a storage whose `getItem` or `setItem`
      throws. */
  class Storage {
    var items: map<string, string>
    var readable: bool
    var writable: bool

    constructor (items0: map<string, string>, readable0: bool, writable0: bool)
      ensures items == items0 && readable == readable0 && writable == writable0
    {
      items, readable, writable := items0, readable0, writable0;
    }

    /** `getItem(key)`. */
    function GetItem(key: string): (r: Read)
      reads this
      ensures r.Threw? <==> !readable
      ensures r.Missing? <==> readable && key !in items
      ensures r.Item? ==> key in items && r.text == items[key]
    {
      if !readable then Threw else if key in items then Item(items[key]) else Missing
    }

    /** `setItem(key, text)`; `ok` is false where the call throws, and then
        nothing is stored. */
    method SetItem(key: string, text: string) returns (ok: bool)
      modifies this`items
      ensures ok == writable
      ensures items == if ok then old(items)[key := text] else old(items)
    {
      ok := writable;
      if ok {
        items := items[key := text];
      }
    }
  }

  /** The value `useLocalStorage` starts with: the decoded item when there
      is a non-empty one and it decodes; `initialValue` when the item is
      missing or empty, when reading throws and when decoding throws. */
  function InitialValue<T>(read: Read, initialValue: T, codec: Codec<T>): (r: T)
    ensures (read.Item? && read.text != "" && codec.decode(read.text).Some?) ==>
              r == codec.decode(read.text).value
    ensures (read.Threw? || read.Missing? || (read.Item? && read.text == "")
             || (read.Item? && codec.decode(read.text).None?)) ==>
              r == initialValue
  {
    match read
    case Item(text) =>
      if text == "" then initialValue
      else codec.decode(text).GetOr(initialValue)
    case _ => initialValue
  }

  /** What `setValue` is given: a value, or a function of the current one. */
  datatype Update<!T> = Value(v: T) | Updater(f: T -> T) {
    function Apply(current: T): T {
      match this
      case Value(v) => v
      case Updater(f) => f(current)
    }
  }

  /** A value a fresh `useLocalStorage` reads back after it was stored. */
  lemma StoredValueReloads<T>(items: map<string, string>, key: string, v: T, initialValue: T, codec: Codec<T>)
    requires Represents(codec, v)
    ensures InitialValue(Item(items[key := codec.encode(v)][key]), initialValue, codec) == v
  {
  }

  /** A storage that cannot be read always gives the default, whatever it holds. */
  lemma UnreadableGivesDefault<T>(initialValue: T, codec: Codec<T>)
    ensures InitialValue(Threw, initialValue, codec) == initialValue
  {
  }

  /** `useLocalStorage(key, initialValue)`: a cell that starts from the
      stored item and writes every new value back under the same key. */
  class Setting<T> {
    const storage: Storage
    const key: string
    const codec: Codec<T>
    var value: T

    constructor (storage: Storage, key: string, initialValue: T, codec: Codec<T>)
      ensures this.storage == storage && this.key == key && this.codec == codec
      ensures value == InitialValue(storage.GetItem(key), initialValue, codec)
    {
      this.storage := storage;
      this.key := key;
      this.codec := codec;
      value := InitialValue(storage.GetItem(key), initialValue, codec);
    }

    /** `setValue(update)`: the held value becomes the update applied to the
        current value; then the encoded value is written under `key`. A
        write that throws is swallowed, leaving the new in-memory value. */
    method SetValue(update: Update<T>) returns (persisted: bool)
      modifies this, storage`items
      ensures value == update.Apply(old(value))
      ensures persisted == storage.writable
      ensures storage.items ==
                if persisted then old(storage.items)[key := codec.encode(value)]
                else old(storage.items)
    {
      var valueToStore := update.Apply(value);
      value := valueToStore;
      persisted := storage.SetItem(key, codec.encode(valueToStore));
    }
  }

  /** Setting a representable value and opening a fresh cell on the same
      key and storage gives that value back. */
  method SetThenReopen<T(==)>(storage: Storage, key: string, v: T, initialValue: T, codec: Codec<T>)
      returns (reopened: T)
    requires storage.readable && storage.writable && Represents(codec, v)
    modifies storage`items
    ensures reopened == v
  {
    var cell := new Setting(storage, key, initialValue, codec);
    var _ := cell.SetValue(Value(v));
    var reloaded := new Setting(storage, key, initialValue, codec);
    reopened := reloaded.value;
  }

  // -----------------------------------------------------------------------
  // Snackbar

  /** A snackbar message: plain text or a rendered element. */
  datatype Message = Text(text: string) | Element(content: string)

  /** The callback a message carries for its action button, by name (the
      callback itself is code the snackbar does not see). */
  type Handler = string

  /** The state of `SnackbarProvider`: one message at a time. */
  class Snackbar {
    var open: bool
    var message: Option<Message>
    var action: Option<string>
    var handleAction: Option<Handler>

    /** Open exactly when a message is shown; a closed snackbar holds nothing. */
    ghost predicate Valid()
      reads this
    {
      (open ==> message.Some?)
      && (!open ==> message.None? && action.None? && handleAction.None?)
    }

    constructor ()
      ensures Valid() && !open
    {
      open, message, action, handleAction := false, None, None, None;
    }

    /** `showMessage(message, action, handleAction)` replaces whatever was shown. */
    method ShowMessage(m: Message, a: Option<string>, h: Option<Handler>)
      modifies this
      ensures Valid()
      ensures open && message == Some(m) && action == a && handleAction == h
    {
      open, message, action, handleAction := true, Some(m), a, h;
    }

    /** `handleClose()`: the state is reset to `{open: false}`. */
    method HandleClose()
      modifies this
      ensures Valid() && !open
    {
      open, message, action, handleAction := false, None, None, None;
    }

    /** `handleActionClick(event)`: closes the snackbar, then calls the
        handler the message carried, if any; `called` is that handler. */
    method HandleActionClick() returns (called: Option<Handler>)
      modifies this
      ensures Valid() && !open
      ensures called == old(handleAction)
    {
      var previous := handleAction;
      HandleClose();
      called := previous;
    }
  }
}
