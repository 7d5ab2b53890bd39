/**
 * Tab-name formatting (src/formatter.rs): the formatter settings with their
 * defaults and their loading from the plugin's option map, codepoint-wise
 * truncation with a middle ellipsis, and the composition of folder and branch
 * into one tab label.
 */
module Formatter {
  import opened Wrappers
  import opened Text

  /** The settings that control how folder and branch are shortened and joined. */
  datatype FormatterConfig = FormatterConfig(
    folderMaxLen: nat,
    folderPrefixLen: nat,
    folderSuffixLen: nat,
    branchMaxLen: nat,
    branchPrefixLen: nat,
    branchSuffixLen: nat,
    separator: string,
    showBranch: bool)

  /** The documented defaults: folder 10/5/4, branch 5/1/4, separator ":", branch shown. */
  const DefaultConfig := FormatterConfig(10, 5, 4, 5, 1, 4, ":", true)

  /** The option keys that carry a number, in field order. */
  const NumericKeys: seq<string> := [
    "folder_max_len", "folder_prefix_len", "folder_suffix_len",
    "branch_max_len", "branch_prefix_len", "branch_suffix_len"]

  /** The numeric field that the option `NumericKeys[k]` sets. */
  function NumericField(c: FormatterConfig, k: nat): nat
    requires k < |NumericKeys|
  {
    if k == 0 then c.folderMaxLen
    else if k == 1 then c.folderPrefixLen
    else if k == 2 then c.folderSuffixLen
    else if k == 3 then c.branchMaxLen
    else if k == 4 then c.branchPrefixLen
    else c.branchSuffixLen
  }

  /** `config.get(key).and_then(|s| s.parse().ok())`. */
  function NumericSetting(settings: map<string, string>, key: string): Option<nat> {
    if key in settings then ParseUsize(settings[key]) else None
  }

  /**
   * The configuration the option map describes, field by field: a numeric
   * option overrides its default only when it parses, the separator is
   * copied as given, and the branch is hidden only by the exact text "false".
   */
  function ConfigFromSettings(settings: map<string, string>): (c: FormatterConfig)
    ensures c.separator == if "separator" in settings then settings["separator"] else ":"
    ensures !c.showBranch <==> "show_branch" in settings && settings["show_branch"] == "false"
  {
    FormatterConfig(
      NumericSetting(settings, "folder_max_len").GetOr(DefaultConfig.folderMaxLen),
      NumericSetting(settings, "folder_prefix_len").GetOr(DefaultConfig.folderPrefixLen),
      NumericSetting(settings, "folder_suffix_len").GetOr(DefaultConfig.folderSuffixLen),
      NumericSetting(settings, "branch_max_len").GetOr(DefaultConfig.branchMaxLen),
      NumericSetting(settings, "branch_prefix_len").GetOr(DefaultConfig.branchPrefixLen),
      NumericSetting(settings, "branch_suffix_len").GetOr(DefaultConfig.branchSuffixLen),
      if "separator" in settings then settings["separator"] else DefaultConfig.separator,
      if "show_branch" in settings then settings["show_branch"] != "false" else DefaultConfig.showBranch)
  }

  /**
   * `FormatterConfig::from_config`: starts from the defaults and overwrites
   * one field per recognised option, silently skipping options that do not parse.
   */
  method FromConfig(settings: map<string, string>) returns (result: FormatterConfig)
    ensures result == ConfigFromSettings(settings)
  {
    result := DefaultConfig;
    var v := NumericSetting(settings, "folder_max_len");
    if v.Some? {
      result := result.(folderMaxLen := v.value);
    }
    v := NumericSetting(settings, "folder_prefix_len");
    if v.Some? {
      result := result.(folderPrefixLen := v.value);
    }
    v := NumericSetting(settings, "folder_suffix_len");
    if v.Some? {
      result := result.(folderSuffixLen := v.value);
    }
    v := NumericSetting(settings, "branch_max_len");
    if v.Some? {
      result := result.(branchMaxLen := v.value);
    }
    v := NumericSetting(settings, "branch_prefix_len");
    if v.Some? {
      result := result.(branchPrefixLen := v.value);
    }
    v := NumericSetting(settings, "branch_suffix_len");
    if v.Some? {
      result := result.(branchSuffixLen := v.value);
    }
    if "separator" in settings {
      result := result.(separator := settings["separator"]);
    }
    if "show_branch" in settings {
      result := result.(showBranch := settings["show_branch"] != "false");
    }
  }

  /**
   * Every numeric option that is absent or not a valid unsigned number leaves
   * its default in place; one that parses replaces it.
   */
  lemma NumericSettingFallback(settings: map<string, string>, k: nat)
    requires k < |NumericKeys|
    ensures var key := NumericKeys[k];
            key !in settings || ParseUsize(settings[key]).None? ==>
              NumericField(ConfigFromSettings(settings), k) == NumericField(DefaultConfig, k)
    ensures var key := NumericKeys[k];
            key in settings && ParseUsize(settings[key]).Some? ==>
              NumericField(ConfigFromSettings(settings), k) == ParseUsize(settings[key]).value
  {
  }

  /** An empty option map gives exactly the defaults. */
  lemma EmptySettingsGiveDefaults()
    ensures ConfigFromSettings(map[]) == DefaultConfig
  {
  }

  /** A number that does not parse, or a negative one, leaves the default in place. */
  lemma InvalidNumbersIgnoredExample()
    ensures ConfigFromSettings(map["folder_max_len" := "not_a_number", "branch_max_len" := "-5"])
         == DefaultConfig
  {
    assert !IsDigit("not_a_number"[0]);
    assert !IsDigit("-5"[0]);
  }

  /** An option map that spells out every field of `c`. */
  function SettingsOf(c: FormatterConfig): map<string, string> {
    map[
      "folder_max_len" := ToDecimal(c.folderMaxLen),
      "folder_prefix_len" := ToDecimal(c.folderPrefixLen),
      "folder_suffix_len" := ToDecimal(c.folderSuffixLen),
      "branch_max_len" := ToDecimal(c.branchMaxLen),
      "branch_prefix_len" := ToDecimal(c.branchPrefixLen),
      "branch_suffix_len" := ToDecimal(c.branchSuffixLen),
      "separator" := c.separator,
      "show_branch" := if c.showBranch then "true" else "false"]
  }

  /** Every configuration can be written as options and loaded back unchanged. */
  lemma SettingsRoundTrip(c: FormatterConfig)
    ensures ConfigFromSettings(SettingsOf(c)) == c
  {
    ParseUsizeRoundTrip(c.folderMaxLen);
    ParseUsizeRoundTrip(c.folderPrefixLen);
    ParseUsizeRoundTrip(c.folderSuffixLen);
    ParseUsizeRoundTrip(c.branchMaxLen);
    ParseUsizeRoundTrip(c.branchPrefixLen);
    ParseUsizeRoundTrip(c.branchSuffixLen);
  }

  /** The single codepoint that marks the elided middle of a truncated name. */
  const Ellipsis: char := '\U{2026}'

  /**
   * `truncate`: shortens `s` to at most `maxLen` codepoints. A string that fits
   * is returned as is; otherwise the result is either the first `maxLen`
   * codepoints or the first `prefixLen` codepoints, an ellipsis and the last
   * `suffixLen` codepoints.
   */
  function Truncate(s: string, maxLen: nat, prefixLen: nat, suffixLen: nat): (r: string)
    ensures |r| <= maxLen
    ensures |s| <= maxLen ==> r == s
    ensures |s| > maxLen ==>
              r == s[..maxLen] ||
              (prefixLen + suffixLen < |s| && |r| == prefixLen + 1 + suffixLen &&
               r == s[..prefixLen] + [Ellipsis] + s[|s| - suffixLen..])
  {
    var count := |s|;
    if count <= maxLen then s
    else if prefixLen == 0 && suffixLen == 0 then s[..maxLen]
    else if prefixLen + 1 + suffixLen > maxLen || prefixLen + suffixLen >= count then s[..maxLen]
    else s[..prefixLen] + [Ellipsis] + s[count - suffixLen..]
  }

  /** Truncating an already truncated string with the same parameters changes nothing. */
  lemma TruncateIdempotent(s: string, maxLen: nat, prefixLen: nat, suffixLen: nat)
    ensures Truncate(Truncate(s, maxLen, prefixLen, suffixLen), maxLen, prefixLen, suffixLen)
         == Truncate(s, maxLen, prefixLen, suffixLen)
  {
  }

  /**
   * With no prefix and no suffix requested, with no room for prefix, ellipsis
   * and suffix, or with prefix and suffix covering the whole string, an
   * over-long string is cut to its first `maxLen` codepoints.
   */
  lemma TruncateKeepsHead(s: string, maxLen: nat, prefixLen: nat, suffixLen: nat)
    requires |s| > maxLen
    requires (prefixLen == 0 && suffixLen == 0) || prefixLen + 1 + suffixLen > maxLen
             || prefixLen + suffixLen >= |s|
    ensures Truncate(s, maxLen, prefixLen, suffixLen) == s[..maxLen]
  {
  }

  /** In every other over-long case the middle of `s` is replaced by one ellipsis. */
  lemma TruncateElidesMiddle(s: string, maxLen: nat, prefixLen: nat, suffixLen: nat)
    requires |s| > maxLen
    requires prefixLen + suffixLen > 0 && prefixLen + 1 + suffixLen <= maxLen
    requires prefixLen + suffixLen < |s|
    ensures var r := Truncate(s, maxLen, prefixLen, suffixLen);
            |r| == prefixLen + 1 + suffixLen && r[..prefixLen] == s[..prefixLen] &&
            r[prefixLen] == Ellipsis && r[prefixLen + 1..] == s[|s| - suffixLen..]
  {
  }

  /** One more than the largest `usize` on a 32-bit target such as WebAssembly. */
  const UsizeModulus: nat := 0x1_0000_0000

  /** `usize` addition as compiled without overflow checks: it wraps around. */
  function WrappingAdd(a: nat, b: nat): nat {
    (a + b) % UsizeModulus
  }

  /** `usize` subtraction as compiled without overflow checks: it wraps around. */
  function WrappingSub(a: nat, b: nat): nat {
    (a - b) % UsizeModulus
  }

  /** `s.chars().take(n)`: at most the first `n` codepoints. */
  function TakeChars(s: string, n: nat): (r: string)
    ensures r <= s && |r| == if n < |s| then n else |s|
  {
    if n < |s| then s[..n] else s
  }

  /** `s.chars().skip(n)`: the codepoints after the first `n`, if any. */
  function SkipChars(s: string, n: nat): (r: string)
    ensures |r| == if n < |s| then |s| - n else 0
  {
    if n < |s| then s[n..] else []
  }

  /**
   * `truncate` as the source computes it with 32-bit `usize` arithmetic that
   * wraps: the two sums that guard the ellipsis case can overflow.
   */
  function TruncateAsWritten(s: string, maxLen: nat, prefixLen: nat, suffixLen: nat): (r: string)
    requires |s| < UsizeModulus && maxLen < UsizeModulus
    requires prefixLen < UsizeModulus && suffixLen < UsizeModulus
    ensures |s| <= maxLen ==> r == s
    ensures |r| > maxLen ==> Ellipsis in r
  {
    var count := |s|;
    if count <= maxLen then s
    else if prefixLen == 0 && suffixLen == 0 then TakeChars(s, maxLen)
    else
      var needed := WrappingAdd(WrappingAdd(prefixLen, 1), suffixLen);
      if needed > maxLen || WrappingAdd(prefixLen, suffixLen) >= count then TakeChars(s, maxLen)
      else
        var head := TakeChars(s, prefixLen);
        var elided := head + [Ellipsis] + SkipChars(s, WrappingSub(count, suffixLen));
        assert elided[|head|] == Ellipsis;
        elided
  }

  /** As long as `prefixLen + 1 + suffixLen` fits in a `usize`, the code as written is `Truncate`. */
  lemma TruncateAsWrittenWithoutOverflow(s: string, maxLen: nat, prefixLen: nat, suffixLen: nat)
    requires |s| < UsizeModulus && maxLen < UsizeModulus
    requires prefixLen + 1 + suffixLen < UsizeModulus
    ensures TruncateAsWritten(s, maxLen, prefixLen, suffixLen) == Truncate(s, maxLen, prefixLen, suffixLen)
  {
    NoWrap(prefixLen + 1);
    NoWrap(prefixLen + 1 + suffixLen);
    NoWrap(prefixLen + suffixLen);
    assert WrappingAdd(WrappingAdd(prefixLen, 1), suffixLen) == prefixLen + 1 + suffixLen;
    assert WrappingAdd(prefixLen, suffixLen) == prefixLen + suffixLen;
    if |s| > maxLen && !(prefixLen == 0 && suffixLen == 0)
       && prefixLen + 1 + suffixLen <= maxLen && prefixLen + suffixLen < |s| {
      NoWrap(|s| - suffixLen);
      assert TakeChars(s, prefixLen) == s[..prefixLen];
      assert SkipChars(s, WrappingSub(|s|, suffixLen)) == s[|s| - suffixLen..];
    }
  }

  /** A sum below the modulus does not wrap. */
  lemma NoWrap(x: int)
    requires 0 <= x < UsizeModulus
    ensures x % UsizeModulus == x
  {
  }

  /**
   * With a prefix length of `usize::MAX` both guarding sums wrap, the ellipsis
   * case is taken, and the result is twice as long as the maximum allowed.
   */
  lemma TruncateAsWrittenOverflows()
    ensures TruncateAsWritten("abcdefgh", 5, 0xFFFF_FFFF, 1) == "abcdefgh" + [Ellipsis] + "h"
    ensures |TruncateAsWritten("abcdefgh", 5, 0xFFFF_FFFF, 1)| == 10
    ensures |Truncate("abcdefgh", 5, 0xFFFF_FFFF, 1)| <= 5
  {
    assert WrappingAdd(WrappingAdd(0xFFFF_FFFF, 1), 1) == 1;
    assert WrappingAdd(0xFFFF_FFFF, 1) == 0;
  }

  /** The folder as shown: truncated with the folder parameters. */
  function FolderDisplay(folder: string, config: FormatterConfig): string {
    Truncate(folder, config.folderMaxLen, config.folderPrefixLen, config.folderSuffixLen)
  }

  /** The branch as shown: truncated with the branch parameters. */
  function BranchDisplay(branch: string, config: FormatterConfig): string {
    Truncate(branch, config.branchMaxLen, config.branchPrefixLen, config.branchSuffixLen)
  }

  /**
   * `format_tab_name`: the truncated folder, followed by the separator and the
   * truncated branch when a branch is given and branches are shown. The label
   * always starts with the folder as shown and is never longer than the two
   * maximum lengths and the separator allow.
   */
  function FormatTabName(folder: string, branch: Option<string>, config: FormatterConfig): (r: string)
    ensures FolderDisplay(folder, config) <= r
    ensures |r| <= config.folderMaxLen +
                   (if branch.Some? && config.showBranch then |config.separator| + config.branchMaxLen else 0)
  {
    var folderDisplay := FolderDisplay(folder, config);
    match (branch, config.showBranch)
    case (Some(b), true) => folderDisplay + config.separator + BranchDisplay(b, config)
    case _ => folderDisplay
  }

  /** Without a branch, or with branches hidden, the label is the folder alone. */
  lemma FolderOnlyWithoutBranch(folder: string, branch: Option<string>, config: FormatterConfig)
    requires branch.None? || !config.showBranch
    ensures FormatTabName(folder, branch, config) == FolderDisplay(folder, config)
  {
  }

  /** A shown branch, even an empty one, follows the folder after the separator. */
  lemma BranchAfterSeparator(folder: string, branch: string, config: FormatterConfig)
    requires config.showBranch
    ensures FormatTabName(folder, Some(branch), config)
         == FolderDisplay(folder, config) + config.separator + BranchDisplay(branch, config)
  {
  }

  /** The truncations the formatter is documented to produce. */
  lemma TruncateExamples()
    ensures Truncate("helloworld!", 10, 5, 4) == "hello\U{2026}rld!"
    ensures Truncate("feature-branch", 5, 1, 4) == "featu"
    ensures Truncate("abcdefgh", 10, 5, 4) == "abcdefgh"
    ensures Truncate("\U{65E5}\U{672C}\U{8A9E}\U{30C6}\U{30B9}\U{30C8}\U{6587}\U{5B57}\U{5217}", 6, 2, 2)
         == "\U{65E5}\U{672C}\U{2026}\U{5B57}\U{5217}"
  {
  }

  /** The labels the formatter is documented to produce with the default settings. */
  lemma FormatTabNameExamples()
    ensures FormatTabName("myproject", Some("main"), DefaultConfig) == "myproject:main"
    ensures FormatTabName("myproject", None, DefaultConfig) == "myproject"
    ensures FormatTabName("my_long_project_name", Some("feature-branch-name"), DefaultConfig)
         == "my_lo\U{2026}name:featu"
    ensures FormatTabName("src", Some(""), DefaultConfig) == "src:"
  {
  }
}
