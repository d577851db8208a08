/** Configuration files as Python's ConfigParser reads them: named sections of
    named text options. */
module IniFiles {
  import opened Wrappers

  /** section -> option -> text */
  type Ini = map<string, map<string, string>>

  /** NoSectionError and NoOptionError. */
  datatype IniError = NoSection(section: string) | NoOption(section: string, option: string)

  /** ConfigParser.get: the option's text, or the error for the missing section or option. */
  function Get(ini: Ini, section: string, option: string): (r: Result<string, IniError>)
    ensures r.Ok? <==> section in ini && option in ini[section]
    ensures r.Ok? ==> r.value == ini[section][option]
    ensures r.Err? ==> (r.error == NoSection(section) <==> section !in ini)
    ensures r.Err? ==> (r.error == NoOption(section, option) <==> section in ini)
  {
    if section !in ini then Err(NoSection(section))
    else if option !in ini[section] then Err(NoOption(section, option))
    else Ok(ini[section][option])
  }
}
