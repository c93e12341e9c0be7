// useSettings: the application settings list with keyed lookup and update.

module SettingsHook {
  import opened Wrappers
  import opened Api
  import Lists

  datatype AppSetting = AppSetting(key: string, value: string, updatedAt: int)

  /** getSettingValue: the value of the first setting with the key. */
  function SettingValue(settings: seq<AppSetting>, key: string): (v: Option<string>)
    ensures v.None? <==> forall i :: 0 <= i < |settings| ==> settings[i].key != key
    ensures v.Some? ==> exists i :: 0 <= i < |settings| && settings[i].key == key && settings[i].value == v.value
                                    && forall j :: 0 <= j < i ==> settings[j].key != key
  {
    match Lists.FirstIndex(settings, (s: AppSetting) => s.key == key)
    case None => None
    case Some(i) => Some(settings[i].value)
  }

  /** The local list after a successful update: every entry with the key takes the new value. */
  function WithValue(settings: seq<AppSetting>, key: string, value: string, now: int): (r: seq<AppSetting>)
    ensures |r| == |settings|
    ensures forall i :: 0 <= i < |settings| && settings[i].key == key ==> r[i] == AppSetting(key, value, now)
    ensures forall i :: 0 <= i < |settings| && settings[i].key != key ==> r[i] == settings[i]
  {
    Lists.MapWhere(settings, (s: AppSetting) => s.key == key, (s: AppSetting) => s.(value := value, updatedAt := now))
  }

  /** After an update, looking the key up gives the new value, whenever the key exists. */
  lemma ReadYourWrite(settings: seq<AppSetting>, key: string, value: string, now: int)
    ensures SettingValue(WithValue(settings, key, value, now), key) ==
            if SettingValue(settings, key).Some? then Some(value) else None
  {
    var r := WithValue(settings, key, value, now);
    if SettingValue(settings, key).Some? {
      var i :| 0 <= i < |settings| && settings[i].key == key;
      assert r[i].key == key;
    }
  }

  /** An update leaves every other key's value as it was. */
  lemma OtherKeysUnchanged(settings: seq<AppSetting>, key: string, other: string, value: string, now: int)
    requires other != key
    ensures SettingValue(WithValue(settings, key, value, now), other) == SettingValue(settings, other)
  {
    var r := WithValue(settings, key, value, now);
    assert forall i :: 0 <= i < |settings| ==> (r[i].key == other <==> settings[i].key == other);
    var a := Lists.FirstIndex(settings, (s: AppSetting) => s.key == other);
    var b := Lists.FirstIndex(r, (s: AppSetting) => s.key == other);
    if a.Some? {
      assert b.Some? && b.value == a.value;
      assert r[a.value] == settings[a.value];
    }
  }

  class Settings {
    var settings: seq<AppSetting>
    var loading: bool
    var error: Option<string>

    constructor()
      ensures settings == [] && loading && error.None?
    {
      settings := [];
      loading := true;
      error := None;
    }

    /** fetchSettings with the response of GET /settings. */
    method FetchSettings(response: Response<seq<AppSetting>>)
      modifies this
      ensures !loading
      ensures response.Data? ==> settings == response.value && error.None?
      ensures response.NoData? ==> settings == old(settings) && error.None?
      ensures response.Failed? ==> settings == old(settings) && error == Some(response.message)
    {
      loading := true;
      error := None;
      match response {
        case Data(s) => settings := s;
        case NoData =>
        case Failed(m) => error := Some(m);
      }
      loading := false;
    }

    /** updateSetting with the response of PUT /settings/:key; `now` is the local clock. */
    method UpdateSetting(key: string, value: string, response: Response<bool>, now: int) returns (ok: bool)
      modifies this
      ensures ok <==> !response.Failed?
      ensures ok ==> settings == WithValue(old(settings), key, value, now) && error == old(error)
      ensures !ok ==> settings == old(settings) && error == Some(response.message)
      ensures loading == old(loading)
    {
      if response.Failed? {
        error := Some(response.message);
        return false;
      }
      settings := WithValue(settings, key, value, now);
      return true;
    }

    function GetSettingValue(key: string): (v: Option<string>)
      reads this
      ensures v.None? <==> forall i :: 0 <= i < |settings| ==> settings[i].key != key
      ensures v.Some? ==> exists i :: 0 <= i < |settings| && settings[i].key == key && settings[i].value == v.value
                                      && forall j :: 0 <= j < i ==> settings[j].key != key
    {
      SettingValue(settings, key)
    }
  }
}
