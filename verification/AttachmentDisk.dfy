/** The attachment directory as it runs, one handler at a time (relay/src/relay.js): saving
    with its clean-up on failure, the clean-up loop with its counter, and a download. */
module AttachmentDisk {
  import opened Wrappers
  import opened Attachments

  /** Entries a clean-up at `now` removes. */
  function Due(meta: map<Key, Meta>, now: int): set<Key> {
    set k | k in meta && meta[k].key == k && meta[k].expires <= now
  }

  /** The atomic map two directories of files stand for. */
  function StoreOf(data: map<Key, Bytes>, meta: map<Key, Meta>): map<Key, Entry> {
    map k | k in data && k in meta :: Entry(data[k], meta[k])
  }

  /** Looking at one more entry. */
  lemma OneMore(due: set<Key>, entries: set<Key>, k: Key)
    requires k in entries
    ensures var gone := due - entries;
            var next := due - (entries - {k});
            next == (if k in due then gone + {k} else gone) && |next| == (if k in due then |gone| + 1 else |gone|)
  {
    var gone := due - entries;
    assert due - (entries - {k}) == if k in due then gone + {k} else gone;
  }

  /** A new file removed again. */
  lemma PutAndTake<T>(m: map<Key, T>, k: Key, v: T)
    requires k !in m
    ensures m[k := v] - {k} == m && m - {k} == m
  {
  }

  lemma RemoveOneMore<T>(m: map<Key, T>, gone: set<Key>, k: Key)
    ensures m - gone - {k} == m - (gone + {k})
  {
  }

  class Directory {
    var data: map<Key, Bytes>
    var meta: map<Key, Meta>
    var tempData: map<Key, Bytes>
    var tempMeta: map<Key, Meta>

    constructor ()
      ensures data == map[] && meta == map[] && tempData == map[] && tempMeta == map[]
    {
      data, meta, tempData, tempMeta := map[], map[], map[], map[];
    }

    /** Saves a new attachment: the data file is in place before the metadata file. `fails`
        is the number of the step that fails, if one does; then every file of the key goes
        again. */
    method Persist(k: Key, entry: Entry, fails: Option<nat>) returns (ok: bool)
      requires k !in data && k !in meta && k !in tempData && k !in tempMeta
      modifies this
      ensures ok <==> fails.None? || fails.value >= 4
      ensures data == if ok then old(data)[k := entry.content] else old(data)
      ensures meta == if ok then old(meta)[k := entry.meta] else old(meta)
      ensures tempData == old(tempData) && tempMeta == old(tempMeta)
    {
      ok := fails.None? || fails.value >= 4;
      WriteFiles(k, entry, if fails.Some? then fails.value else 4);
      if !ok {
        RemoveTemporary(k);
        RemoveFiles(k);
      }
      PutAndTake(old(data), k, entry.content);
      PutAndTake(old(meta), k, entry.meta);
      PutAndTake(old(tempData), k, entry.content);
      PutAndTake(old(tempMeta), k, entry.meta);
    }

    /** The steps of a save up to the one that fails. */
    method WriteFiles(k: Key, entry: Entry, steps: nat)
      requires k !in data && k !in meta && k !in tempData && k !in tempMeta
      modifies this
      ensures data == if steps > 1 then old(data)[k := entry.content] else old(data)
      ensures meta == if steps > 3 then old(meta)[k := entry.meta] else old(meta)
      ensures tempData == if steps == 1 then old(tempData)[k := entry.content] else old(tempData)
      ensures tempMeta == if steps == 3 then old(tempMeta)[k := entry.meta] else old(tempMeta)
    {
      PutAndTake(tempData, k, entry.content);
      PutAndTake(tempMeta, k, entry.meta);
      if steps > 0 { WriteData(k, entry.content); }
      if steps > 1 { RenameDataFile(k); }
      if steps > 2 { WriteMetadata(k, entry.meta); }
      if steps > 3 { RenameMetadataFile(k); }
    }

    method WriteData(k: Key, content: Bytes)
      modifies this`tempData
      ensures tempData == old(tempData)[k := content]
    {
      tempData := tempData[k := content];
    }

    method RenameDataFile(k: Key)
      requires k in tempData
      modifies this`data, this`tempData
      ensures data == old(data)[k := old(tempData)[k]] && tempData == old(tempData) - {k}
    {
      data := data[k := tempData[k]];
      tempData := tempData - {k};
    }

    method WriteMetadata(k: Key, m: Meta)
      modifies this`tempMeta
      ensures tempMeta == old(tempMeta)[k := m]
    {
      tempMeta := tempMeta[k := m];
    }

    method RenameMetadataFile(k: Key)
      requires k in tempMeta
      modifies this`meta, this`tempMeta
      ensures meta == old(meta)[k := old(tempMeta)[k]] && tempMeta == old(tempMeta) - {k}
    {
      meta := meta[k := tempMeta[k]];
      tempMeta := tempMeta - {k};
    }

    method RemoveTemporary(k: Key)
      modifies this`tempData, this`tempMeta
      ensures tempData == old(tempData) - {k} && tempMeta == old(tempMeta) - {k}
    {
      tempData := tempData - {k};
      tempMeta := tempMeta - {k};
    }

    method RemoveFiles(k: Key)
      modifies this`data, this`meta
      ensures data == old(data) - {k} && meta == old(meta) - {k}
    {
      data := data - {k};
      meta := meta - {k};
    }

    /** Removes both files of every entry that has expired, and of no other; says how many. */
    method CleanupExpired(now: int) returns (removed: nat)
      modifies this`data, this`meta
      ensures data == old(data) - Due(old(meta), now) && meta == old(meta) - Due(old(meta), now)
      ensures removed == |Due(old(meta), now)|
    {
      removed := 0;
      ghost var due := Due(meta, now);
      var entries := meta.Keys;
      while entries != {}
        invariant entries <= old(meta).Keys && due == Due(old(meta), now)
        invariant data == old(data) - (due - entries) && meta == old(meta) - (due - entries)
        invariant removed == |due - entries|
      {
        var k :| k in entries;
        OneMore(due, entries, k);
        if meta[k].key == k && meta[k].expires <= now {
          RemoveOneMore(old(data), due - entries, k);
          RemoveOneMore(old(meta), due - entries, k);
          RemoveFiles(k);
          removed := removed + 1;
        }
        entries := entries - {k};
      }
      assert due - entries == due;
    }

    /** A download: the whole content, for the tunnel it was uploaded under and until it
        expires; an expired entry is removed on the way. */
    method Download(tunnel: TunnelId, k: Key, now: int) returns (answer: Answer)
      modifies this`data, this`meta
      ensures var before := StoreOf(old(data), old(meta));
              && (answer.Found? <==> Servable(before, k, tunnel, now) && before[k].meta.key == k)
              && (answer.Found? ==> Entry(answer.content, answer.meta) == before[k])
      ensures (data == old(data) && meta == old(meta))
              || (k in old(meta) && old(meta)[k].expires <= now && data == old(data) - {k} && meta == old(meta) - {k})
    {
      if k !in meta || meta[k].key != k || meta[k].tunnel != tunnel {
        return Missing;
      }
      if meta[k].expires <= now {
        RemoveFiles(k);
        return Missing;
      }
      answer := if k in data then Found(data[k], meta[k]) else Missing;
    }
  }
}
