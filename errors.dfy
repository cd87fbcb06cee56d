/** The exceptions the modelled code raises, one constructor per cause.
    The Python exception class each one stands for is noted beside it. */
module Errors {

  datatype Error =
    | MissingKey(key: string)                          // KeyError: a required table entry is absent
    | UnsupportedType(param: string, typeName: string) // ValueError from Parameter.__post_init__
    | UnsupportedRtpcType(param: string, rtpc: string) // ValueError from Parameter.__post_init__
    | UnknownTemplate(template: string)                // KeyError: templates[...]
    | UnknownInnerType(innerType: string)              // KeyError: self.innerTypes[...]
    | UnresolvedDependency(param: string, target: string) // KeyError: self.parameters[dep['name']]
    | BadPlaceholder(text: string)                     // error raised by `text % {'suffix': ...}`
    | UnsupportedControl(param: string, typeName: string) // ValueError from generate_win32_controls
    | InvalidConfigKey(key: string)                    // KeyError from GlobalConfig.get / set
    | InvalidLiteral(text: string)                     // ValueError from int(text)
    | FileNotFound(path: string)                       // FileNotFoundError from copy_template / ProjectConfig.load
    | NotSubscriptable(key: string)                    // TypeError: `None[key]` on a configuration never loaded
}
