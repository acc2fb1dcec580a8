/**
 * Command templating (`_templateCommand` and `_templateSnippetCommand` in
 * lib/runner.js): a `cd <dir> && ` prefix, then the command with the first
 * occurrence of each placeholder token replaced.
 */
module Templating {
  import opened Text

  const DirToken: string := "{{ snippet.dir }}"
  const NameToken: string := "{{ snippet.name }}"
  const SourceToken: string := "{{ snippet.source }}"

  function CdPrefix(dir: string): string {
    "cd " + dir + " && "
  }

  /** `_templateCommand`: the runner's working directory and the dir token only. */
  function TemplateCommand(path: string, cmd: string): string {
    CdPrefix(path) + Replace(cmd, DirToken, path)
  }

  /**
   * `_templateSnippetCommand`: the snippet's destination directory; the name,
   * source and dir tokens are replaced in that order, first occurrence only.
   */
  function TemplateSnippetCommand(cmd: string, name: string, source: string, destDir: string): string {
    CdPrefix(destDir) + Replace(Replace(Replace(cmd, NameToken, name), SourceToken, source), DirToken, destDir)
  }

  /** A command without the dir token only gains the `cd` prefix. */
  lemma TemplatePlain(path: string, cmd: string)
    requires !Contains(cmd, DirToken)
    ensures TemplateCommand(path, cmd) == CdPrefix(path) + cmd
  {
  }

  /**
   * The first dir token is replaced by the path; whatever follows it,
   * further dir tokens included, is kept verbatim.
   */
  lemma TemplateFirstDir(path: string, u: string, v: string)
    requires forall j: nat :: j < |u| ==> !OccursAt(u + DirToken + v, DirToken, j)
    ensures TemplateCommand(path, u + DirToken + v) == CdPrefix(path) + u + path + v
  {
    ReplaceFirst(u, DirToken, v, path);
  }

  /**
   * The before hooks of a runner are templated twice: once the first pass
   * leaves no dir token, the second pass only adds a second `cd` prefix.
   */
  lemma TemplateTwice(path: string, cmd: string)
    requires !Contains(TemplateCommand(path, cmd), DirToken)
    ensures TemplateCommand(path, TemplateCommand(path, cmd)) == CdPrefix(path) + CdPrefix(path) + Replace(cmd, DirToken, path)
  {
  }

  /** A snippet command with no placeholder only gains the `cd` prefix. */
  lemma TemplateSnippetPlain(cmd: string, name: string, source: string, destDir: string)
    requires !Contains(cmd, NameToken) && !Contains(cmd, SourceToken) && !Contains(cmd, DirToken)
    ensures TemplateSnippetCommand(cmd, name, source, destDir) == CdPrefix(destDir) + cmd
  {
  }

  /**
   * The usual shape `<tool> {{ snippet.source }}`: the source token is
   * replaced by the snippet's file name.
   */
  lemma TemplateSnippetSource(u: string, v: string, name: string, source: string, destDir: string)
    requires !Contains(u + SourceToken + v, NameToken)
    requires forall j: nat :: j < |u| ==> !OccursAt(u + SourceToken + v, SourceToken, j)
    requires !Contains(u + source + v, DirToken)
    ensures TemplateSnippetCommand(u + SourceToken + v, name, source, destDir) == CdPrefix(destDir) + u + source + v
  {
    ReplaceFirst(u, SourceToken, v, source);
  }
}
