/** Certificate keys `provider/device/app/container[/serial]` and the authorization
    key the handlers derive from them. */
module CertKey {
  import opened Options
  import opened Bytes
  import opened Text

  const SLASH: Byte := 47
  const DEFAULT: Text := [100, 101, 102, 97, 117, 108, 116]

  /** What an authorization is about: a target, never a credential. */
  datatype AuthKey = AuthKey(provider: Text, device: Text, application: Text)

  function NormalizeAlias(default: Text, requested: Text): Text {
    if requested == [] || requested == DEFAULT then default else requested
  }

  function SplitCertKey(certKey: Text, min: nat): Option<seq<Text>> {
    var parts := SplitN(certKey, 5, SLASH);
    if |parts| < min then None else Some(parts)
  }

  /** The derivation of `CheckPIN` (`min` 3) and of the signing and encryption
      handlers (`min` 4). */
  function KeyOf(default: Text, certKey: Text, min: nat): Option<AuthKey>
    requires min >= 3
  {
    var parts := SplitCertKey(certKey, min);
    if parts.None? then None
    else Some(AuthKey(NormalizeAlias(default, parts.value[0]), parts.value[1], parts.value[2]))
  }

  /** How `FindCertificates` prints a key. */
  function FormatKey(provider: Text, device: Text, app: Text, container: Text, serial: Text): Text {
    provider + [SLASH] + (device + [SLASH] + (app + [SLASH] + (container + [SLASH] + serial)))
  }

  lemma SplitTwo(container: Text, serial: Text)
    requires SLASH !in container
    ensures SplitN(container + [SLASH] + serial, 2, SLASH) == [container, serial]
  {
    SplitNStep(container, 2, SLASH, serial);
    assert SplitN(serial, 1, SLASH) == [serial];
  }

  lemma SplitThree(app: Text, container: Text, serial: Text)
    requires SLASH !in app && SLASH !in container
    ensures SplitN(app + [SLASH] + (container + [SLASH] + serial), 3, SLASH) == [app, container, serial]
  {
    SplitTwo(container, serial);
    SplitNStep(app, 3, SLASH, container + [SLASH] + serial);
  }

  lemma SplitFour(device: Text, app: Text, container: Text, serial: Text)
    requires SLASH !in device && SLASH !in app && SLASH !in container
    ensures SplitN(device + [SLASH] + (app + [SLASH] + (container + [SLASH] + serial)), 4, SLASH)
            == [device, app, container, serial]
  {
    SplitThree(app, container, serial);
    SplitNStep(device, 4, SLASH, app + [SLASH] + (container + [SLASH] + serial));
  }

  /** A printed key splits back into its five parts; the serial may hold slashes. */
  lemma FormatRoundTrip(provider: Text, device: Text, app: Text, container: Text, serial: Text)
    requires SLASH !in provider && SLASH !in device && SLASH !in app && SLASH !in container
    ensures SplitCertKey(FormatKey(provider, device, app, container, serial), 5)
            == Some([provider, device, app, container, serial])
  {
    var rest := device + [SLASH] + (app + [SLASH] + (container + [SLASH] + serial));
    SplitFour(device, app, container, serial);
    SplitFive(provider, rest, [device, app, container, serial]);
    assert [provider] + [device, app, container, serial] == [provider, device, app, container, serial];
  }

  lemma SplitFive(provider: Text, rest: Text, parts: seq<Text>)
    requires SLASH !in provider && SplitN(rest, 4, SLASH) == parts
    ensures SplitN(provider + [SLASH] + rest, 5, SLASH) == [provider] + parts
  {
    SplitNStep(provider, 5, SLASH, rest);
  }

  /** `whole` keeps every part of `base` but possibly its `n`-th, and has more of them
      unless there were `n` already. */
  predicate Extends(whole: seq<Text>, base: seq<Text>, n: nat) {
    && |whole| >= |base|
    && (|whole| > |base| || |whole| == n)
    && forall i :: 0 <= i < |base| && i < n - 1 ==> whole[i] == base[i]
  }

  lemma ExtendsCons(head: Text, whole: seq<Text>, base: seq<Text>, n: nat)
    requires Extends(whole, base, n)
    ensures Extends([head] + whole, [head] + base, n + 1)
  {
    forall i | 0 <= i < |[head] + base| && i < n ensures ([head] + whole)[i] == ([head] + base)[i] {
      if i > 0 { assert whole[i - 1] == base[i - 1]; }
    }
  }

  lemma ExtendsWhole(k: Text, n: nat, b: Byte, ext: Text)
    requires n > 1 && b !in k
    ensures Extends(SplitN(k + [b] + ext, n, b), SplitN(k, n, b), n)
  {
    IndexOfAbsent(k, b);
    assert SplitN(k, n, b) == [k];
    SplitNStep(k, n, b, ext);
  }

  lemma ExtendsAfter(head: Text, tail: Text, n: nat, b: Byte, ext: Text)
    requires n > 1 && b !in head && Extends(SplitN(tail + [b] + ext, n - 1, b), SplitN(tail, n - 1, b), n - 1)
    ensures Extends(SplitN((head + [b] + tail) + [b] + ext, n, b), SplitN(head + [b] + tail, n, b), n)
  {
    assert (head + [b] + tail) + [b] + ext == head + [b] + (tail + [b] + ext);
    SplitNStep(head, n, b, tail);
    SplitNStep(head, n, b, tail + [b] + ext);
    ExtendsCons(head, SplitN(tail + [b] + ext, n - 1, b), SplitN(tail, n - 1, b), n - 1);
  }

  /** Extending a key keeps every part but the last possible one. */
  lemma {:induction false} SplitNExtend(k: Text, n: nat, b: Byte, ext: Text)
    requires n > 0
    ensures Extends(SplitN(k + [b] + ext, n, b), SplitN(k, n, b), n)
    decreases n
  {
    var i := IndexOf(k, b);
    if n > 1 {
      if i == |k| {
        assert k[..i] == k;
        ExtendsWhole(k, n, b, ext);
      } else {
        var head, tail := k[..i], k[i + 1..];
        SplitNExtend(tail, n - 1, b, ext);
        ExtendsAfter(head, tail, n, b, ext);
        assert k == head + [b] + tail;
      }
    }
  }

  /** A PIN checked with any key authorizes the signing handlers on every extension
      of that key, and on the key itself when it names a container. */
  lemma PinKeyCoversExtensions(default: Text, certKey: Text, ext: Text)
    ensures KeyOf(default, certKey, 3).Some? ==>
              KeyOf(default, certKey + [SLASH] + ext, 4) == KeyOf(default, certKey, 3)
    ensures KeyOf(default, certKey, 4).Some? ==> KeyOf(default, certKey, 3) == KeyOf(default, certKey, 4)
  {
    SplitNExtend(certKey, 5, SLASH, ext);
  }

  /** The default alias may be left out, written out or called `default`. */
  lemma DefaultAliasIsOne(default: Text, rest: Text)
    requires SLASH !in default
    ensures KeyOf(default, [SLASH] + rest, 3) == KeyOf(default, DEFAULT + [SLASH] + rest, 3)
    ensures KeyOf(default, default + [SLASH] + rest, 3) == KeyOf(default, [SLASH] + rest, 3)
  {
    SplitNStep([], 5, SLASH, rest);
    assert [] + [SLASH] + rest == [SLASH] + rest;
    SplitNStep(DEFAULT, 5, SLASH, rest);
    SplitNStep(default, 5, SLASH, rest);
  }
}
