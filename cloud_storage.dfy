/**
 * Media references and the object store (CloudMediaStorageAdapter, AvatarsUploader,
 * BackPadsUploader). A media URL is a configured link prefix, "/" and a storage key; the store is
 * a set of (bucket, key) objects. A storage client error (Boto3Error) is an input: it is logged
 * and swallowed, so the call then leaves the store as it was and raises nothing.
 */
module CloudStorage {
  import opened Wrappers
  import opened Strings
  import opened Exceptions

  /** AVATARS_LINK, BACK_PADS_LINK, BUCKET_NAME_AVATARS and BUCKET_NAME_BACK_PADS. */
  datatype MediaConfig = MediaConfig(
    avatarsLink: string, backPadsLink: string, avatarsBucket: string, backPadsBucket: string)

  datatype StoredObject = StoredObject(bucket: string, key: string)

  const DefaultAvatarName := "default-avatar-dark.png"
  const DefaultBackPadName := "default-back-pad-dark.png"

  /** `get_media_prefix(key, avatar, back_pad)`: `avatar` wins over `back_pad`; neither gives None. */
  function MediaPrefix(cfg: MediaConfig, key: string, avatar: bool, backPad: bool): (r: Option<string>)
    ensures avatar ==> r == Some(cfg.avatarsLink + "/" + key)
    ensures !avatar && backPad ==> r == Some(cfg.backPadsLink + "/" + key)
    ensures !avatar && !backPad ==> r.None?
  {
    if avatar then Some(cfg.avatarsLink + "/" + key)
    else if backPad then Some(cfg.backPadsLink + "/" + key)
    else None
  }

  /** The URL of an avatar stored under `key`. */
  function AvatarUrl(cfg: MediaConfig, key: string): string
  {
    MediaPrefix(cfg, key, true, false).value
  }

  /** The URL of a back-pad stored under `key`. */
  function BackPadUrl(cfg: MediaConfig, key: string): string
  {
    MediaPrefix(cfg, key, false, true).value
  }

  /** `get_default_avatar()`. */
  function DefaultAvatar(cfg: MediaConfig): (url: string)
    ensures url == cfg.avatarsLink + "/" + DefaultAvatarName
  {
    AvatarUrl(cfg, DefaultAvatarName)
  }

  /** `get_default_back_pad()`. */
  function DefaultBackPad(cfg: MediaConfig): (url: string)
    ensures url == cfg.backPadsLink + "/" + DefaultBackPadName
  {
    BackPadUrl(cfg, DefaultBackPadName)
  }

  /** The key `delete_avatar` derives: every occurrence of AVATARS_LINK + "/" removed. */
  function AvatarKey(cfg: MediaConfig, link: string): string
  {
    ReplaceAll(link, cfg.avatarsLink + "/", "")
  }

  /** The key `delete_back_pad` derives: every occurrence of BACK_PADS_LINK + "/" removed. */
  function BackPadKey(cfg: MediaConfig, link: string): string
  {
    ReplaceAll(link, cfg.backPadsLink + "/", "")
  }

  /** The object `delete_avatar(link)` removes: none for the default placeholder, else one in the avatars bucket. */
  function AvatarDeletion(cfg: MediaConfig, link: string): (r: Option<StoredObject>)
    ensures r.None? <==> AvatarKey(cfg, link) == DefaultAvatarName
    ensures r.Some? ==> r.value == StoredObject(cfg.avatarsBucket, AvatarKey(cfg, link))
  {
    var key := AvatarKey(cfg, link);
    if key == DefaultAvatarName then None else Some(StoredObject(cfg.avatarsBucket, key))
  }

  /** The object `delete_back_pad(link)` removes: none for the default placeholder, else one in the back-pads bucket. */
  function BackPadDeletion(cfg: MediaConfig, link: string): (r: Option<StoredObject>)
    ensures r.None? <==> BackPadKey(cfg, link) == DefaultBackPadName
    ensures r.Some? ==> r.value == StoredObject(cfg.backPadsBucket, BackPadKey(cfg, link))
  {
    var key := BackPadKey(cfg, link);
    if key == DefaultBackPadName then None else Some(StoredObject(cfg.backPadsBucket, key))
  }

  function AsSet(o: Option<StoredObject>): set<StoredObject>
  {
    if o.Some? then {o.value} else {}
  }

  /** A prefix that ends in "/" does not occur in a key without "/". */
  lemma SlashPrefixAbsent(key: string, link: string)
    requires forall i :: 0 <= i < |key| ==> key[i] != '/'
    ensures !Occurs(key, link + "/")
  {
    var pat := link + "/";
    forall i | 0 <= i <= |key|
      ensures !OccursAt(key, pat, i)
    {
      if i + |pat| <= |key| {
        assert key[i..i + |pat|][|pat| - 1] == key[i + |pat| - 1] != '/';
      }
    }
  }

  /** Key derivation inverts URL building for a key in which the link prefix does not occur. */
  lemma KeyRoundTrip(link: string, key: string)
    requires !Occurs(key, link + "/")
    ensures ReplaceAll(link + "/" + key, link + "/", "") == key
  {
    assert link + "/" + key == (link + "/") + key;
    ReplaceAllLeading(link + "/", key, "");
    ReplaceAllAbsent(key, link + "/", "");
  }

  /** Deleting the default avatar or the default back-pad never reaches the storage. */
  lemma DefaultsNeverDeleted(cfg: MediaConfig)
    ensures AvatarDeletion(cfg, DefaultAvatar(cfg)).None?
    ensures BackPadDeletion(cfg, DefaultBackPad(cfg)).None?
  {
    SlashPrefixAbsent(DefaultAvatarName, cfg.avatarsLink);
    KeyRoundTrip(cfg.avatarsLink, DefaultAvatarName);
    SlashPrefixAbsent(DefaultBackPadName, cfg.backPadsLink);
    KeyRoundTrip(cfg.backPadsLink, DefaultBackPadName);
  }

  /**
   * Round trip: deleting the avatar URL built from `key` removes exactly (avatars bucket, key),
   * unless `key` is the default name; likewise for back-pads.
   */
  lemma DeletionRoundTrip(cfg: MediaConfig, key: string)
    ensures !Occurs(key, cfg.avatarsLink + "/") ==>
      AvatarDeletion(cfg, AvatarUrl(cfg, key))
        == if key == DefaultAvatarName then None else Some(StoredObject(cfg.avatarsBucket, key))
    ensures !Occurs(key, cfg.backPadsLink + "/") ==>
      BackPadDeletion(cfg, BackPadUrl(cfg, key))
        == if key == DefaultBackPadName then None else Some(StoredObject(cfg.backPadsBucket, key))
  {
    if !Occurs(key, cfg.avatarsLink + "/") {
      KeyRoundTrip(cfg.avatarsLink, key);
    }
    if !Occurs(key, cfg.backPadsLink + "/") {
      KeyRoundTrip(cfg.backPadsLink, key);
    }
  }

  /**
   * Every occurrence of the prefix is removed, not only the leading one: if the key itself contains
   * AVATARS_LINK + "/", the derived key is shorter than it, so a different object is targeted.
   */
  lemma InnerPrefixAlsoRemoved(cfg: MediaConfig, key: string)
    requires Occurs(key, cfg.avatarsLink + "/")
    ensures |AvatarKey(cfg, AvatarUrl(cfg, key))| < |key|
  {
    var pat := cfg.avatarsLink + "/";
    assert AvatarUrl(cfg, key) == pat + key;
    ReplaceAllLeading(pat, key, "");
    ReplaceAllRemovesOccurrence(key, pat);
  }

  /** The object store, as CloudMediaStorageAdapter and its two uploaders see it. */
  class MediaStorage {
    const config: MediaConfig
    var objects: set<StoredObject>

    constructor (config: MediaConfig, objects: set<StoredObject>)
      ensures this.config == config && this.objects == objects
    {
      this.config := config;
      this.objects := objects;
    }

    /**
     * `delete_avatar(link)`. A missing link (None) raises AttributeError from `None.replace`.
     * Otherwise the derived object is removed, unless it is the default or the client fails.
     */
    method DeleteAvatar(link: Option<string>, clientFails: bool) returns (raised: Option<PyException>)
      modifies this
      ensures raised.Some? <==> link.None?
      ensures raised.Some? ==> raised.value == PyException("AttributeError", "'NoneType' object has no attribute 'replace'")
      ensures objects == if link.None? || clientFails then old(objects)
                         else old(objects) - AsSet(AvatarDeletion(config, link.value))
    {
      if link.None? {
        return Some(PyException("AttributeError", "'NoneType' object has no attribute 'replace'"));
      }
      var target := AvatarDeletion(config, link.value);
      if target.Some? && !clientFails {
        objects := objects - {target.value};
      }
      return None;
    }

    /** `delete_back_pad(link)`, as DeleteAvatar with the back-pads prefix, default and bucket. */
    method DeleteBackPad(link: Option<string>, clientFails: bool) returns (raised: Option<PyException>)
      modifies this
      ensures raised.Some? <==> link.None?
      ensures raised.Some? ==> raised.value == PyException("AttributeError", "'NoneType' object has no attribute 'replace'")
      ensures objects == if link.None? || clientFails then old(objects)
                         else old(objects) - AsSet(BackPadDeletion(config, link.value))
    {
      if link.None? {
        return Some(PyException("AttributeError", "'NoneType' object has no attribute 'replace'"));
      }
      var target := BackPadDeletion(config, link.value);
      if target.Some? && !clientFails {
        objects := objects - {target.value};
      }
      return None;
    }

    /** `upload_avatar(file, name)`: puts (avatars bucket, name); a client failure is swallowed. */
    method UploadAvatar(fileName: string, clientFails: bool)
      modifies this
      ensures objects == if clientFails then old(objects)
                         else old(objects) + {StoredObject(config.avatarsBucket, fileName)}
    {
      if !clientFails {
        objects := objects + {StoredObject(config.avatarsBucket, fileName)};
      }
    }

    /** `upload_back_pads(file, name)`: puts (back-pads bucket, name); a client failure is swallowed. */
    method UploadBackPads(fileName: string, clientFails: bool)
      modifies this
      ensures objects == if clientFails then old(objects)
                         else old(objects) + {StoredObject(config.backPadsBucket, fileName)}
    {
      if !clientFails {
        objects := objects + {StoredObject(config.backPadsBucket, fileName)};
      }
    }
  }
}
