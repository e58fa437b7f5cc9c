/**
 * The text `VulkanDebugCallback` builds for one debug-report message, and a
 * reader that recovers the reported severities from that text.
 */
module DebugReport {
  import opened Vulkan

  /** The five severity bits of `VkDebugReportFlagsEXT`, in the order the callback tests them. */
  datatype Severity = Information | Warning | PerformanceWarning | Error | Debug

  const SEVERITY_ORDER: seq<Severity> := [Information, Warning, PerformanceWarning, Error, Debug]

  function Bit(severity: Severity): bv32
  {
    match severity
    case Information => VK_DEBUG_REPORT_INFORMATION_BIT_EXT
    case Warning => VK_DEBUG_REPORT_WARNING_BIT_EXT
    case PerformanceWarning => VK_DEBUG_REPORT_PERFORMANCE_WARNING_BIT_EXT
    case Error => VK_DEBUG_REPORT_ERROR_BIT_EXT
    case Debug => VK_DEBUG_REPORT_DEBUG_BIT_EXT
  }

  /** The tag the callback writes for a severity whose bit is set. */
  function Tag(severity: Severity): string
  {
    match severity
    case Information => "INFO: "
    case Warning => "WARNING: "
    case PerformanceWarning => "PERFORMANCE: "
    case Error => "ERROR: "
    case Debug => "DEBUG: "
  }

  const MESSAGE_HEADER: string := "VKDBG: "

  /** Whether the bit of `severity` is set in `flags`. */
  predicate Reports(flags: bv32, severity: Severity)
  {
    flags & Bit(severity) != 0
  }

  /** The tag written for `severity`: its tag when its bit is set, nothing otherwise. */
  function TagFor(flags: bv32, severity: Severity): string
  {
    if Reports(flags, severity) then Tag(severity) else ""
  }

  /** The tags of the severities in `order` whose bit is set in `flags`, concatenated in that order. */
  function TagsFor(flags: bv32, order: seq<Severity>): string
  {
    if order == [] then "" else TagFor(flags, order[0]) + TagsFor(flags, order[1..])
  }

  /** The severities in `order` whose bit is set in `flags`. */
  function ReportedAmong(flags: bv32, order: seq<Severity>): set<Severity>
  {
    set severity | severity in order && Reports(flags, severity)
  }

  /** All severities whose bit is set in `flags`. */
  function Reported(flags: bv32): set<Severity>
  {
    ReportedAmong(flags, SEVERITY_ORDER)
  }

  /** The stream after the tags of the severities in `order` have been written to `stream`, one after the other. */
  function WriteTags(stream: string, flags: bv32, order: seq<Severity>): string
    decreases order
  {
    if order == [] then stream else WriteTags(stream + TagFor(flags, order[0]), flags, order[1..])
  }

  /** Writing the tags in the fixed order appends them one by one, INFO first and DEBUG last. */
  lemma WriteTagsInFixedOrder(stream: string, flags: bv32)
    ensures WriteTags(stream, flags, SEVERITY_ORDER) ==
      stream + TagFor(flags, Information) + TagFor(flags, Warning) + TagFor(flags, PerformanceWarning)
             + TagFor(flags, Error) + TagFor(flags, Debug)
  {
    assert SEVERITY_ORDER[1..] == [Warning, PerformanceWarning, Error, Debug];
    assert SEVERITY_ORDER[1..][1..] == [PerformanceWarning, Error, Debug];
    assert SEVERITY_ORDER[1..][1..][1..] == [Error, Debug];
    assert SEVERITY_ORDER[1..][1..][1..][1..] == [Debug];
    assert SEVERITY_ORDER[1..][1..][1..][1..][1..] == [];
  }

  /**
   * The whole text: the header, the tags in the fixed order INFO, WARNING,
   * PERFORMANCE, ERROR, DEBUG, then "@[" layer prefix "]: ", the message and a
   * newline.
   */
  function DebugMessage(flags: bv32, layerPrefix: string, msg: string): (text: string)
    ensures MESSAGE_HEADER <= text
    ensures text != [] && text[|text| - 1] == '\n'
  {
    WriteTagsAppends(MESSAGE_HEADER, flags, SEVERITY_ORDER);
    WriteTags(MESSAGE_HEADER, flags, SEVERITY_ORDER) + "@[" + layerPrefix + "]: " + msg + "\n"
  }

  /**
   * The body of `VulkanDebugCallback`: the stream is filled step by step and
   * its contents are what the callback prints; the callback always answers
   * VK_FALSE, so the call that triggered the message is never aborted. The
   * object type, source object, location, message code and user data
   * arguments are not read by the callback and are not parameters here.
   */
  method VulkanDebugCallback(flags: bv32, layerPrefix: string, msg: string) returns (result: U32, text: string)
    ensures result == VK_FALSE
    ensures text == DebugMessage(flags, layerPrefix, msg)
  {
    WriteTagsInFixedOrder(MESSAGE_HEADER, flags);
    var stream := MESSAGE_HEADER;
    ghost var written := stream;
    if flags & VK_DEBUG_REPORT_INFORMATION_BIT_EXT != 0 {
      stream := stream + "INFO: ";
    }
    assert stream == written + TagFor(flags, Information);
    written := stream;
    if flags & VK_DEBUG_REPORT_WARNING_BIT_EXT != 0 {
      stream := stream + "WARNING: ";
    }
    assert stream == written + TagFor(flags, Warning);
    written := stream;
    if flags & VK_DEBUG_REPORT_PERFORMANCE_WARNING_BIT_EXT != 0 {
      stream := stream + "PERFORMANCE: ";
    }
    assert stream == written + TagFor(flags, PerformanceWarning);
    written := stream;
    if flags & VK_DEBUG_REPORT_ERROR_BIT_EXT != 0 {
      stream := stream + "ERROR: ";
    }
    assert stream == written + TagFor(flags, Error);
    written := stream;
    if flags & VK_DEBUG_REPORT_DEBUG_BIT_EXT != 0 {
      stream := stream + "DEBUG: ";
    }
    assert stream == written + TagFor(flags, Debug);
    stream := stream + "@[" + layerPrefix + "]: ";
    stream := stream + msg + "\n";
    text := stream;
    result := VK_FALSE;
  }

  /** The first severity in `order` whose tag starts `s`. */
  function MatchTag(s: string, order: seq<Severity>): (found: Option<Severity>)
    ensures found.Some? ==> found.value in order && Tag(found.value) <= s
  {
    if order == [] then None
    else if Tag(order[0]) <= s then Some(order[0])
    else MatchTag(s, order[1..])
  }

  /** Reads severity tags off the front of `s` until none matches; returns their severities and what is left. */
  function ReadTags(s: string): (r: (set<Severity>, string))
    ensures |r.1| <= |s|
    decreases |s|
  {
    match MatchTag(s, SEVERITY_ORDER)
    case None => ({}, s)
    case Some(severity) =>
      var (found, rest) := ReadTags(s[|Tag(severity)|..]);
      ({severity} + found, rest)
  }

  /** Reads back a callback text: the severities it reports, and the "@[prefix]: msg" remainder. */
  function ReadDebugMessage(text: string): Option<(set<Severity>, string)>
  {
    if MESSAGE_HEADER <= text then Some(ReadTags(text[|MESSAGE_HEADER|..])) else None
  }

  /** A string that starts with a character no tag starts with. */
  predicate StartsWithoutTag(s: string)
  {
    s == [] || s[0] !in {'I', 'W', 'P', 'E', 'D'}
  }

  /** `MatchTag` finds a severity whose tag starts `s` when no other tag in `order` does. */
  lemma {:induction false} MatchTagFinds(s: string, order: seq<Severity>, severity: Severity)
    requires severity in order && Tag(severity) <= s
    requires forall other :: other in order && other != severity ==> !(Tag(other) <= s)
    ensures MatchTag(s, order) == Some(severity)
  {
    if order[0] != severity {
      MatchTagFinds(s, order[1..], severity);
    }
  }

  /** `MatchTag` finds nothing when no tag in `order` starts `s`. */
  lemma {:induction false} MatchTagMisses(s: string, order: seq<Severity>)
    requires forall other :: other in order ==> !(Tag(other) <= s)
    ensures MatchTag(s, order) == None
  {
    if order != [] {
      MatchTagMisses(s, order[1..]);
    }
  }

  /** Tags start with pairwise different characters, and none of them with a character `StartsWithoutTag` allows. */
  lemma TagStart(severity: Severity)
    ensures Tag(severity) != []
    ensures Tag(severity)[0] == match severity
      case Information => 'I' case Warning => 'W' case PerformanceWarning => 'P'
      case Error => 'E' case Debug => 'D'
  {
  }

  /** Tags start with pairwise different characters, so a tag is matched as itself. */
  lemma MatchTagOfTag(severity: Severity, rest: string)
    ensures MatchTag(Tag(severity) + rest, SEVERITY_ORDER) == Some(severity)
  {
    var s := Tag(severity) + rest;
    TagStart(severity);
    assert s[0] == Tag(severity)[0];
    forall other | other in SEVERITY_ORDER && other != severity
      ensures !(Tag(other) <= s)
    {
      TagStart(other);
    }
    MatchTagFinds(s, SEVERITY_ORDER, severity);
  }

  /** No tag matches a string that starts with anything but a tag's first character. */
  lemma MatchTagNone(s: string)
    requires StartsWithoutTag(s)
    ensures MatchTag(s, SEVERITY_ORDER) == None
  {
    forall other | other in SEVERITY_ORDER
      ensures !(Tag(other) <= s)
    {
      TagStart(other);
    }
    MatchTagMisses(s, SEVERITY_ORDER);
  }

  /** Reading a string that starts with a tag reads that tag, then goes on after it. */
  lemma ReadTagsAfterTag(severity: Severity, later: string)
    ensures ReadTags(Tag(severity) + later) == ({severity} + ReadTags(later).0, ReadTags(later).1)
  {
    var s := Tag(severity) + later;
    MatchTagOfTag(severity, later);
    assert s[|Tag(severity)|..] == later;
  }

  /** The reported severities of a non-empty order: those of its head, then those of the rest. */
  lemma ReportedAmongCons(flags: bv32, order: seq<Severity>)
    requires order != []
    ensures ReportedAmong(flags, order) ==
      (if Reports(flags, order[0]) then {order[0]} else {}) + ReportedAmong(flags, order[1..])
  {
    assert order == [order[0]] + order[1..];
    forall x
      ensures x in ReportedAmong(flags, order) <==>
        x in (if Reports(flags, order[0]) then {order[0]} else {}) + ReportedAmong(flags, order[1..])
    {
      assert x in order <==> x == order[0] || x in order[1..];
    }
  }

  /** The tags of a non-empty order, followed by a tail, regrouped around the head's tag. */
  lemma TagsForThenTail(flags: bv32, order: seq<Severity>, tail: string)
    requires order != []
    ensures TagsFor(flags, order) + tail == TagFor(flags, order[0]) + (TagsFor(flags, order[1..]) + tail)
  {
  }

  /**
   * Reading the tags written for `flags` in any order gives back exactly the
   * severities of `order` whose bits are set, and leaves the rest untouched.
   */
  lemma {:induction false} ReadTagsRoundTrip(flags: bv32, order: seq<Severity>, tail: string)
    requires StartsWithoutTag(tail)
    ensures ReadTags(TagsFor(flags, order) + tail) == (ReportedAmong(flags, order), tail)
  {
    if order == [] {
      MatchTagNone(tail);
      assert TagsFor(flags, order) + tail == tail;
      assert ReportedAmong(flags, order) == {};
    } else {
      var severity := order[0];
      ReadTagsRoundTrip(flags, order[1..], tail);
      var later := TagsFor(flags, order[1..]) + tail;
      ReportedAmongCons(flags, order);
      TagsForThenTail(flags, order, tail);
      if Reports(flags, severity) {
        ReadTagsAfterTag(severity, later);
      } else {
        assert TagFor(flags, severity) == "";
        assert TagsFor(flags, order) + tail == later;
        assert ReportedAmong(flags, order) == ReportedAmong(flags, order[1..]);
      }
    }
  }

  /** Writing the tags one after the other appends their concatenation. */
  lemma {:induction false} WriteTagsAppends(stream: string, flags: bv32, order: seq<Severity>)
    ensures WriteTags(stream, flags, order) == stream + TagsFor(flags, order)
    decreases order
  {
    if order != [] {
      WriteTagsAppends(stream + TagFor(flags, order[0]), flags, order[1..]);
      assert stream + TagFor(flags, order[0]) + TagsFor(flags, order[1..]) ==
             stream + (TagFor(flags, order[0]) + TagsFor(flags, order[1..]));
    }
  }

  /** The callback text is the header, then the tags, then the tail: what a reader strips the header from. */
  lemma DebugMessageLayout(flags: bv32, layerPrefix: string, msg: string)
    ensures MESSAGE_HEADER <= DebugMessage(flags, layerPrefix, msg)
    ensures DebugMessage(flags, layerPrefix, msg)[|MESSAGE_HEADER|..] ==
      TagsFor(flags, SEVERITY_ORDER) + ("@[" + layerPrefix + "]: " + msg + "\n")
  {
    var tail := "@[" + layerPrefix + "]: " + msg + "\n";
    var text := DebugMessage(flags, layerPrefix, msg);
    WriteTagsAppends(MESSAGE_HEADER, flags, SEVERITY_ORDER);
    assert text == MESSAGE_HEADER + (TagsFor(flags, SEVERITY_ORDER) + tail);
  }

  /**
   * Round trip: the text of the callback reads back as exactly the severities
   * whose bits are set in `flags`, followed by "@[" layer prefix "]: ", the
   * message and a newline.
   */
  lemma DebugMessageRoundTrip(flags: bv32, layerPrefix: string, msg: string)
    ensures ReadDebugMessage(DebugMessage(flags, layerPrefix, msg)) ==
      Some((Reported(flags), "@[" + layerPrefix + "]: " + msg + "\n"))
  {
    DebugMessageLayout(flags, layerPrefix, msg);
    ReadTagsRoundTrip(flags, SEVERITY_ORDER, "@[" + layerPrefix + "]: " + msg + "\n");
  }

  /** The severities a flag set reports are exactly those whose bit is set. */
  lemma ReportedBits(flags: bv32, severity: Severity)
    ensures severity in Reported(flags) <==> flags & Bit(severity) != 0
  {
  }
}
