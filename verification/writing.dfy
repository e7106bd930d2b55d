/** The names and the schemata text the driver writes, number by number. */
module Writing {
  import opened GoText
  import opened Numerals
  import opened Schemata
  import opened Names
  import opened Partitioning
  import opened Discovery
  import opened Publishing

  // ----- schemata

  /** One setting of a resource in a domain. */
  ghost predicate Setting(line: string, resource: string, dom: int, value: string) {
    exists a: string :: IsDecimal(a, dom) && line == resource + ":" + a + "=" + value
  }

  /** The text is the L3 setting of the domain, with the mask in hexadecimal. */
  ghost predicate MaskSetting(text: string, dom: int, mask: bv64) {
    exists h: string :: Printed(h, 16, mask as int) && Setting(text, "L3", dom, h)
  }

  lemma SettingIff(line: string, resource: string, dom: int, value: string)
    ensures Setting(line, resource, dom, value) <==> line == resource + ":" + Decimal(dom) + "=" + value
  {
    DecimalIff(Decimal(dom), dom);
    forall a: string | IsDecimal(a, dom) ensures a == Decimal(dom) {
      DecimalIff(a, dom);
    }
  }

  /** What a prepare writes for a group, and nothing else, is that setting. */
  lemma StructuredTextIff(text: string, cacheID: int, mask: bv64)
    ensures text == BuildStructuredSchemata(cacheID, Hex(mask), 0) <==> MaskSetting(text, cacheID, mask)
  {
    HexIff(Hex(mask), mask);
    assert "L3" + ":" == "L3:";
    SettingIff(text, "L3", cacheID, Hex(mask));
    if MaskSetting(text, cacheID, mask) {
      var h: string :| Printed(h, 16, mask as int) && Setting(text, "L3", cacheID, h);
      HexIff(h, mask);
    }
  }

  /** The runbook's example: five ways of domain 0. */
  lemma RunbookExample()
    ensures BuildStructuredSchemata(0, Hex(0x1f), 0) == "L3:0=1f"
  {
    assert Digits(0, 10) == "0";
    assert Digits(0x1f, 16) == "1f";
  }

  ghost predicate BandwidthSetting(line: string, resource: string, dom: int, throttle: int) {
    exists v: string :: IsDecimal(v, throttle) && Setting(line, resource, dom, v)
  }

  lemma BandwidthIff(line: string, resource: string, dom: int, throttle: int)
    ensures BandwidthSetting(line, resource, dom, throttle)
      <==> line == resource + ":" + Decimal(dom) + "=" + Decimal(throttle)
  {
    DecimalIff(Decimal(throttle), throttle);
    SettingIff(line, resource, dom, Decimal(throttle));
    forall v: string | IsDecimal(v, throttle) ensures v == Decimal(throttle) {
      DecimalIff(v, throttle);
    }
  }

  /** The lines of a pre-partitioned group: L3 first, then one line each for L2, memory
      bandwidth and slow memory bandwidth where configured, with their own values. */
  lemma CombinedLines(cacheID: int, cbm: string, l2CBM: string, mba: int, smba: int, line: string)
    requires '\n' !in cbm && '\n' !in l2CBM
    ensures var lines := Split(FormatCombinedSchemata(cacheID, cbm, l2CBM, mba, smba), '\n');
      && Setting(lines[0], "L3", cacheID, cbm)
      && |lines| == 1 + (if l2CBM != "" then 1 else 0) + (if mba > 0 then 1 else 0) + (if smba > 0 then 1 else 0)
      && (line in lines <==>
            || Setting(line, "L3", cacheID, cbm)
            || (l2CBM != "" && Setting(line, "L2", cacheID, l2CBM))
            || (mba > 0 && BandwidthSetting(line, "MB", cacheID, mba))
            || (smba > 0 && BandwidthSetting(line, "SMBA", cacheID, smba)))
  {
    var first, others := FormatSchemata(cacheID, cbm), OtherLines(cacheID, l2CBM, mba, smba);
    NoBreaks(cacheID, cbm, l2CBM, mba, smba);
    SplitJoin([first] + others, '\n');
    Settings(cacheID, cbm, l2CBM, mba, smba, line);
    Settings(cacheID, cbm, l2CBM, mba, smba, first);
    OtherLineIff(cacheID, l2CBM, mba, smba, line);
  }

  lemma Settings(cacheID: int, cbm: string, l2CBM: string, mba: int, smba: int, line: string)
    ensures Setting(line, "L3", cacheID, cbm) <==> line == FormatSchemata(cacheID, cbm)
    ensures Setting(line, "L2", cacheID, l2CBM) <==> line == "L2:" + Decimal(cacheID) + "=" + l2CBM
    ensures BandwidthSetting(line, "MB", cacheID, mba) <==> line == FormatMBA(cacheID, mba)
    ensures BandwidthSetting(line, "SMBA", cacheID, smba) <==> line == FormatSMBA(cacheID, smba)
  {
    assert "L3" + ":" == "L3:" && "L2" + ":" == "L2:" && "MB" + ":" == "MB:" && "SMBA" + ":" == "SMBA:";
    SettingIff(line, "L3", cacheID, cbm);
    SettingIff(line, "L2", cacheID, l2CBM);
    BandwidthIff(line, "MB", cacheID, mba);
    BandwidthIff(line, "SMBA", cacheID, smba);
  }

  lemma OtherLineIff(cacheID: int, l2CBM: string, mba: int, smba: int, line: string)
    ensures line in OtherLines(cacheID, l2CBM, mba, smba)
      <==> || (l2CBM != "" && line == "L2:" + Decimal(cacheID) + "=" + l2CBM)
           || (mba > 0 && line == FormatMBA(cacheID, mba))
           || (smba > 0 && line == FormatSMBA(cacheID, smba))
  {
  }

  lemma NoBreaks(cacheID: int, cbm: string, l2CBM: string, mba: int, smba: int)
    requires '\n' !in cbm && '\n' !in l2CBM
    ensures forall l | l in [FormatSchemata(cacheID, cbm)] + OtherLines(cacheID, l2CBM, mba, smba) :: '\n' !in l
  {
    DecimalLacks(cacheID, '\n');
    DecimalLacks(mba, '\n');
    DecimalLacks(smba, '\n');
  }

  /** A structured group with a throttle has the same lines. */
  lemma StructuredIsCombined(cacheID: int, cbm: string, mba: int)
    ensures BuildStructuredSchemata(cacheID, cbm, mba) == FormatCombinedSchemata(cacheID, cbm, "", mba, 0)
  {
    var others := if mba > 0 then [FormatMBA(cacheID, mba)] else [];
    assert OtherLines(cacheID, "", mba, 0) == others;
  }

  // ----- names

  /** Every name spells its numbers in decimal: the domain first, then the index or the
      number of ways, and the claim by the digits of its UUID. */
  lemma NamesSpelled(cacheID: int, index: int, uid: string, c: string, k: string)
    requires IsDecimal(c, cacheID) && IsDecimal(k, index)
    ensures PartitionID(cacheID, index) == "cache" + c + "-part" + k
    ensures PartitionGroup(cacheID, index) == "dra-cache" + c + "-part" + k
    ensures DeviceName(cacheID, index) == "cache" + c + "-" + k + "way"
    ensures CounterKey(cacheID) == "cache" + c
    ensures IsUUID(uid) ==> GroupName(cacheID, uid) == "dra-c" + c + "-" + Compact(uid)
    ensures forall p: CachePartition | p.cacheID == cacheID && p.index == index ::
      MBADeviceID(p) == "mba" + c + "-part" + k && SMBADeviceID(p) == "smba" + c + "-part" + k
  {
    DecimalIff(c, cacheID);
    DecimalIff(k, index);
    if IsUUID(uid) { SanitizeIsCompact(uid); }
  }
}
