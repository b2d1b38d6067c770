/** The transcription preference (`TranscriptionContext`): one persisted flag and a
    loading flag. Device storage is a map from keys to the JSON text stored under
    them; whether a read or a write fails is a parameter. */
module TranscriptionStore {
  import opened Wrappers

  const StorageKey := "@echo_transcription_enabled"

  /** `JSON.parse` on a stored boolean: the two JSON literals and nothing else. */
  function ParseBool(text: string): (b: Option<bool>)
    ensures b == Some(true) <==> text == "true"
    ensures b == Some(false) <==> text == "false"
  {
    if text == "true" then Some(true)
    else if text == "false" then Some(false)
    else None
  }

  /** `JSON.stringify` on a boolean; parsing gives the value back. */
  function StringifyBool(b: bool): (text: string)
    ensures ParseBool(text) == Some(b)
  {
    if b then "true" else "false"
  }

  /** The flag after loading: the stored value when one can be read and parsed,
      otherwise the flag as it was. */
  function Loaded(enabled: bool, storage: map<string, string>, readFails: bool): (r: bool)
    ensures readFails || StorageKey !in storage ==> r == enabled
    ensures !readFails && StorageKey in storage && ParseBool(storage[StorageKey]).Some? ==>
      r == ParseBool(storage[StorageKey]).value
  {
    if !readFails && StorageKey in storage then ParseBool(storage[StorageKey]).GetOr(enabled)
    else enabled
  }

  class TranscriptionSetting {
    var transcriptionsEnabled: bool
    var loading: bool
    var storage: map<string, string>

    /** Mounting the provider: enabled and loading, over the device's storage. */
    constructor (stored: map<string, string>)
      ensures transcriptionsEnabled && loading && storage == stored
    {
      transcriptionsEnabled := true;
      loading := true;
      storage := stored;
    }

    /** `loadTranscriptionSetting()`: loading always ends, failed or not. */
    method LoadTranscriptionSetting(readFails: bool)
      modifies this`transcriptionsEnabled, this`loading
      ensures !loading
      ensures transcriptionsEnabled == Loaded(old(transcriptionsEnabled), storage, readFails)
    {
      if !readFails && StorageKey in storage {
        var parsed := ParseBool(storage[StorageKey]);
        if parsed.Some? {
          transcriptionsEnabled := parsed.value;
        }
      }
      loading := false;
    }

    /** `toggleTranscriptions()`: the flag is negated at once, and the new value is
        written under the key unless the write fails. */
    method ToggleTranscriptions(writeFails: bool)
      modifies this`transcriptionsEnabled, this`storage
      ensures transcriptionsEnabled == !old(transcriptionsEnabled)
      ensures storage == if writeFails then old(storage)
                         else old(storage)[StorageKey := StringifyBool(transcriptionsEnabled)]
    {
      var newValue := !transcriptionsEnabled;
      transcriptionsEnabled := newValue;
      if !writeFails {
        storage := storage[StorageKey := StringifyBool(newValue)];
      }
    }
  }

  /** A toggle that was written survives a restart: a new provider over the same
      storage loads the toggled value. */
  method ToggleThenRestart(stored: map<string, string>) returns (toggled: bool, reloaded: bool)
    ensures toggled == !Loaded(true, stored, false)
    ensures reloaded == toggled
  {
    var setting := new TranscriptionSetting(stored);
    setting.LoadTranscriptionSetting(false);
    setting.ToggleTranscriptions(false);
    toggled := setting.transcriptionsEnabled;
    var restarted := new TranscriptionSetting(setting.storage);
    restarted.LoadTranscriptionSetting(false);
    reloaded := restarted.transcriptionsEnabled;
  }

  /** Toggling twice restores the flag; the stored value is then the original one. */
  method ToggleTwice(stored: map<string, string>, readFails: bool) returns (before: bool, after: bool, written: string)
    ensures after == before
    ensures written == StringifyBool(before)
  {
    var setting := new TranscriptionSetting(stored);
    setting.LoadTranscriptionSetting(readFails);
    before := setting.transcriptionsEnabled;
    setting.ToggleTranscriptions(false);
    setting.ToggleTranscriptions(false);
    after := setting.transcriptionsEnabled;
    written := setting.storage[StorageKey];
  }

  /** With nothing stored the preference loads as enabled. */
  method FirstLaunch(stored: map<string, string>) returns (enabled: bool, loading: bool)
    requires StorageKey !in stored
    ensures enabled && !loading
  {
    var setting := new TranscriptionSetting(stored);
    setting.LoadTranscriptionSetting(false);
    enabled := setting.transcriptionsEnabled;
    loading := setting.loading;
  }
}
