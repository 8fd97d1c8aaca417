/** The device-identity part of the global `config` that the attribute sync writes. */
module Config {
  import opened Types
  import opened Attributes

  /** The identity strings and log level of the global `config`; `size` holds
      each string field's buffer size. */
  class DeviceConfig {
    var model: string
    var group: string
    var broker: string
    var wssid: string
    var wpass: string
    var dssid: string
    var dpass: string
    var upass: string
    var provisionDeviceKey: string
    var provisionDeviceSecret: string
    var logLev: u8
    const size: Identity<nat>

    ghost function Strings(): Identity<string>
      reads this
    {
      Identity(model, group, broker, wssid, wpass, dssid, dpass, upass,
               provisionDeviceKey, provisionDeviceSecret)
    }

    ghost predicate Valid()
      reads this
    {
      SizesValid(size) && IdentityFits(Strings(), size)
    }

    /** Every string empty, log level 0. */
    constructor (size: Identity<nat>)
      requires SizesValid(size)
      ensures Valid() && this.size == size && logLev == 0
      ensures Strings() == Identity("", "", "", "", "", "", "", "", "", "")
    {
      this.size := size;
      model, group, broker, wssid, wpass := "", "", "", "", "";
      dssid, dpass, upass, provisionDeviceKey, provisionDeviceSecret := "", "", "", "", "";
      logLev := 0;
    }

    /** The `strlcpy` lines of `processSharedAttributesUpdate`, each string
        copied when present (`port`, read and dropped between `broker` and
        `wssid`, changes nothing). */
    method MergeStrings(data: Doc)
      requires SizesValid(size) && TextValuesAreStrings(data)
      modifies this`model, this`group, this`broker, this`wssid, this`wpass, this`dssid, this`dpass,
               this`upass, this`provisionDeviceKey, this`provisionDeviceSecret
      ensures model == CopyText(old(model), data, "model", size.model)
      ensures group == CopyText(old(group), data, "group", size.group)
      ensures broker == CopyText(old(broker), data, "broker", size.broker)
      ensures wssid == CopyText(old(wssid), data, "wssid", size.wssid)
      ensures wpass == CopyText(old(wpass), data, "wpass", size.wpass)
      ensures dssid == CopyText(old(dssid), data, "dssid", size.dssid)
      ensures dpass == CopyText(old(dpass), data, "dpass", size.dpass)
      ensures upass == CopyText(old(upass), data, "upass", size.upass)
      ensures provisionDeviceKey == CopyText(old(provisionDeviceKey), data, "provisionDeviceKey", size.provisionDeviceKey)
      ensures provisionDeviceSecret == CopyText(old(provisionDeviceSecret), data, "provisionDeviceSecret", size.provisionDeviceSecret)
    {
      var model1 := CopyText(model, data, "model", size.model);
      var group1 := CopyText(group, data, "group", size.group);
      var broker1 := CopyText(broker, data, "broker", size.broker);
      var wssid1 := CopyText(wssid, data, "wssid", size.wssid);
      var wpass1 := CopyText(wpass, data, "wpass", size.wpass);
      var dssid1 := CopyText(dssid, data, "dssid", size.dssid);
      var dpass1 := CopyText(dpass, data, "dpass", size.dpass);
      var upass1 := CopyText(upass, data, "upass", size.upass);
      var provisionDeviceKey1 := CopyText(provisionDeviceKey, data, "provisionDeviceKey", size.provisionDeviceKey);
      var provisionDeviceSecret1 := CopyText(provisionDeviceSecret, data, "provisionDeviceSecret", size.provisionDeviceSecret);
      model, group, broker, wssid, wpass, dssid, dpass, upass, provisionDeviceKey, provisionDeviceSecret :=
        model1, group1, broker1, wssid1, wpass1, dssid1, dpass1, upass1, provisionDeviceKey1, provisionDeviceSecret1;
    }
  }
}
