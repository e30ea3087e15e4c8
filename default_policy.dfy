/** The fixed baseline that every driver configuration is merged over, the
    built-in driver list, and the namespace that turns a driver name into a
    class name. */
module DefaultPolicy {
  import opened Wrappers
  import opened Php

  /** `Chamilo\CoreBundle\Component\Editor\Driver\`, with one trailing backslash. */
  const DriverNamespace: string := "Chamilo\\CoreBundle\\Component\\Editor\\Driver\\"

  /** getDriverClass: the fully qualified class of the driver called `name`. */
  function DriverClass(name: string): (cls: string)
    ensures |cls| == |DriverNamespace| + |name|
    ensures cls[..|DriverNamespace|] == DriverNamespace
    ensures cls[|DriverNamespace|..] == name
  {
    DriverNamespace + name
  }

  /** Two driver names never resolve to the same class. */
  lemma DriverClassInjective(a: string, b: string)
    ensures DriverClass(a) == DriverClass(b) <==> a == b
  {
    if DriverClass(a) == DriverClass(b) {
      assert a == DriverClass(a)[|DriverNamespace|..];
    }
  }

  /** getDefaultDriverList: the drivers a new connector activates. */
  function DefaultDriverList(): (names: seq<string>)
    ensures |names| == 5
    ensures forall i, j :: 0 <= i < j < |names| ==> names[i] != names[j]
    ensures "HomeDriver" in names && "PersonalDriver" in names && "CourseDriver" in names
    ensures "CourseUserDriver" in names && "DropBoxDriver" in names
  {
    ["CourseDriver", "CourseUserDriver", "DropBoxDriver", "HomeDriver", "PersonalDriver"]
  }

  /** MIME types and categories accepted on upload. */
  const UploadAllow: seq<string> := [
    "image",
    "audio",
    "video",
    "text/html",
    "text/csv",
    "application/pdf",
    "application/postscript",
    "application/vnd.ms-word",
    "application/vnd.ms-excel",
    "application/vnd.ms-powerpoint",
    "application/pdf",
    "application/xml",
    "application/vnd.oasis.opendocument.text",
    "application/x-shockwave-flash",
    "application/vnd.adobe.flash.movie"
  ]

  /** elFinder commands switched off on every root. */
  const DisabledCommands: seq<string> := [
    "duplicate", "rename", "mkdir", "mkfile", "copy", "cut",
    "paste", "edit", "extract", "archive", "help", "resize"
  ]

  /** Paths hidden on every root: server-side scripts and XML, deleted
      files, and thumbnail and quarantine folders. */
  const HiddenPatterns: seq<string> := [
    "/\\.(php|py|pl|sh|xml)$/i",
    "/_DELETED_/",
    "/.tmb/",
    "/.thumbs/",
    "/.quarantine/"
  ]

  /** A rule that hides what `pattern` matches and forbids reading and
      writing it, without locking it. */
  function HidingRule(pattern: string): (r: AttributeRule)
    ensures r.pattern == pattern
    ensures r.read == Some(false) && r.write == Some(false)
    ensures r.hidden == Some(true) && r.locked == Some(false)
  {
    AttributeRule(pattern, Some(false), Some(false), Some(true), Some(false))
  }

  /** The default attribute rules, one hiding rule per hidden pattern, in order. */
  function DefaultRules(): (rs: seq<Value>)
    ensures |rs| == 5
    ensures forall i :: 0 <= i < |rs| ==> rs[i].Rule? && rs[i].rule.pattern == HiddenPatterns[i]
    ensures forall i :: 0 <= i < |rs| ==> rs[i] == Rule(HidingRule(rs[i].rule.pattern))
  {
    seq(|HiddenPatterns|, i requires 0 <= i < |HiddenPatterns| => Rule(HidingRule(HiddenPatterns[i])))
  }

  /** getDefaultDriverSettings: the baseline root configuration. */
  function DefaultDriverSettings(): (c: Config)
    ensures c.Keys == {"uploadOverwrite", "uploadAllow", "uploadOrder", "disabled", "attributes"}
    ensures c["uploadOverwrite"] == Bool(false)
    ensures c["uploadOrder"] == List([Str("allow")])
    ensures c["uploadAllow"] == List(StrList(UploadAllow))
    ensures c["disabled"] == List(StrList(DisabledCommands))
    ensures c["attributes"] == List(DefaultRules())
    ensures !IsSet(c, "driver") && !IsSet(c, "plugin")
  {
    map[
      "uploadOverwrite" := Bool(false),
      "uploadAllow" := List(StrList(UploadAllow)),
      "uploadOrder" := List([Str("allow")]),
      "disabled" := List(StrList(DisabledCommands)),
      "attributes" := List(DefaultRules())
    ]
  }

  /** Shape of the baseline lists: fifteen upload entries, `application/pdf`
      among them twice (positions 5 and 10); twelve distinct disabled
      commands, `mkdir` among them. */
  lemma DefaultListsShape()
    ensures |UploadAllow| == 15
    ensures forall i :: 0 <= i < |UploadAllow| ==> (UploadAllow[i] == "application/pdf" <==> i == 5 || i == 10)
    ensures |DisabledCommands| == 12 && "mkdir" in DisabledCommands
    ensures forall i, j :: 0 <= i < j < |DisabledCommands| ==> DisabledCommands[i] != DisabledCommands[j]
  {
  }
}
