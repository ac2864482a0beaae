/** Storage keys `uploads/{userId}/{id}-{cleanName}` and the shape of the
    random identifier that makes them unique. */
module ObjectKeys {
  import opened JsStrings
  import opened FileNames

  /** A lower-case hexadecimal digit, as `crypto.randomUUID()` writes them. */
  predicate IsLowerHex(c: CodeUnit)
  {
    ('0' as int <= c <= '9' as int) || ('a' as int <= c <= 'f' as int)
  }

  /** Offsets of the four hyphens in the 8-4-4-4-12 layout. */
  predicate IsHyphenOffset(i: int)
  {
    i == 8 || i == 13 || i == 18 || i == 23
  }

  /** The string form of a version-4 UUID (section 4.4 of RFC 4122): 36 units,
      hyphens at offsets 8, 13, 18 and 23, hex digits elsewhere, version digit
      `4` at offset 14 and variant bits `10` (so `8`, `9`, `a` or `b`) at offset 19. */
  predicate IsUuidV4(id: JsString)
  {
    |id| == 36
    && (forall i :: 0 <= i < 36 ==> if IsHyphenOffset(i) then id[i] == DASH else IsLowerHex(id[i]))
    && id[14] == '4' as int
    && (id[19] == '8' as int || id[19] == '9' as int || id[19] == 'a' as int || id[19] == 'b' as int)
  }

  /** A version-4 identifier of the shape `crypto.randomUUID()` returns. */
  lemma ExampleUuidIsV4()
    ensures IsUuidV4(Units("9b2f8c1e-4d3a-4f6b-8a7c-1e2d3c4b5a69"))
  {
  }

  const UPLOADS_PREFIX: JsString := Units("uploads/")

  /** The key template literal `uploads/${userId}/${id}-${cleanName}`. */
  function StorageKey(userId: JsString, id: JsString, cleanName: JsString): (key: JsString)
    ensures |key| == |UPLOADS_PREFIX| + |userId| + 1 + |id| + 1 + |cleanName|
  {
    UPLOADS_PREFIX + userId + [SLASH] + id + [DASH] + cleanName
  }

  lemma UploadsPrefixSlashes()
    ensures |UPLOADS_PREFIX| == 8
    ensures Count(UPLOADS_PREFIX, SLASH) == 1
  {
    assert UPLOADS_PREFIX == [0x75, 0x70, 0x6C, 0x6F, 0x61, 0x64, 0x73, 0x2F];
  }

  lemma UuidHasNoSlash(id: JsString)
    requires IsUuidV4(id)
    ensures SLASH !in id
    ensures Count(id, SLASH) == 0
  {
    assert forall i :: 0 <= i < |id| ==> id[i] != SLASH;
    CountAbsent(id, SLASH);
  }

  /** Neither the identifier nor a clean name holds a `/`, so the key has
      exactly the two separators of the template beyond those in `userId`. */
  lemma StorageKeySlashCount(userId: JsString, id: JsString, filename: JsString)
    requires IsUuidV4(id)
    ensures Count(StorageKey(userId, id, CleanName(filename)), SLASH) == Count(userId, SLASH) + 2
  {
    var clean := CleanName(filename);
    UploadsPrefixSlashes();
    UuidHasNoSlash(id);
    CleanNameHasNoSlash(filename);
    CountConcat(UPLOADS_PREFIX, userId, SLASH);
    CountConcat(UPLOADS_PREFIX + userId, [SLASH], SLASH);
    CountConcat(UPLOADS_PREFIX + userId + [SLASH], id, SLASH);
    CountConcat(UPLOADS_PREFIX + userId + [SLASH] + id, [DASH], SLASH);
    CountConcat(UPLOADS_PREFIX + userId + [SLASH] + id + [DASH], clean, SLASH);
    assert Count([SLASH], SLASH) == 1;
    assert Count([DASH], SLASH) == 0;
  }

  /** The last path segment of the key is `{id}-{cleanName}`, and everything
      before it is `uploads/{userId}/`: the filename adds no segment. */
  lemma StorageKeyLastSegment(userId: JsString, id: JsString, filename: JsString)
    requires IsUuidV4(id)
    ensures var key := StorageKey(userId, id, CleanName(filename));
      && LastSegment(key) == id + [DASH] + CleanName(filename)
      && key == UPLOADS_PREFIX + userId + [SLASH] + LastSegment(key)
  {
    var clean := CleanName(filename);
    UuidHasNoSlash(id);
    CleanNameHasNoSlash(filename);
    var tail := id + [DASH] + clean;
    assert SLASH !in tail by {
      assert forall i :: 0 <= i < |tail| ==> tail[i] != SLASH by {
        assert forall i :: 0 <= i < |id| ==> tail[i] == id[i];
        assert forall i :: |id| < i < |tail| ==> tail[i] == clean[i - |id| - 1];
      }
    }
    assert StorageKey(userId, id, clean) == (UPLOADS_PREFIX + userId) + [SLASH] + tail;
    LastSegmentAfterSlash(UPLOADS_PREFIX + userId, tail);
  }

  /** Whatever the filename, the last segment is never `.` or `..`, and it
      starts with the identifier and a hyphen. */
  lemma StorageKeyLastSegmentIsNotDotted(userId: JsString, id: JsString, filename: JsString)
    requires IsUuidV4(id)
    ensures var last := LastSegment(StorageKey(userId, id, CleanName(filename)));
      && last != [DOT] && last != [DOT, DOT]
      && last[..37] == id + [DASH]
  {
    StorageKeyLastSegment(userId, id, filename);
  }

  /** For one user, the key determines the identifier and the clean name:
      two different identifiers never give the same key. */
  lemma StorageKeyInjective(userId: JsString, id1: JsString, clean1: JsString, id2: JsString, clean2: JsString)
    requires IsUuidV4(id1) && IsUuidV4(id2)
    requires StorageKey(userId, id1, clean1) == StorageKey(userId, id2, clean2)
    ensures id1 == id2 && clean1 == clean2
  {
    var k := StorageKey(userId, id1, clean1);
    var start := |UPLOADS_PREFIX| + |userId| + 1;
    assert k[start..start + 36] == id1;
    assert StorageKey(userId, id2, clean2)[start..start + 36] == id2;
    assert k[start + 37..] == clean1;
    assert StorageKey(userId, id2, clean2)[start + 37..] == clean2;
  }

  /** The key determines the user as well, even for user ids that hold `/`:
      the last segment `{id}-{cleanName}` has no `/`, so cancelling it and the
      `uploads/` prefix leaves the user id. Keys of different users, or of
      different identifiers, never collide. */
  lemma StorageKeyDeterminesUser(user1: JsString, id1: JsString, filename1: JsString,
                                 user2: JsString, id2: JsString, filename2: JsString)
    requires IsUuidV4(id1) && IsUuidV4(id2)
    requires StorageKey(user1, id1, CleanName(filename1)) == StorageKey(user2, id2, CleanName(filename2))
    ensures user1 == user2 && id1 == id2 && CleanName(filename1) == CleanName(filename2)
  {
    var k := StorageKey(user1, id1, CleanName(filename1));
    StorageKeyLastSegment(user1, id1, filename1);
    StorageKeyLastSegment(user2, id2, filename2);
    var last := LastSegment(k);
    var p := |UPLOADS_PREFIX|;
    assert |user1| == |user2|;
    assert k[p..p + |user1|] == user1;
    assert k[p..p + |user2|] == user2;
    StorageKeyInjective(user1, id1, CleanName(filename1), id2, CleanName(filename2));
  }
}
