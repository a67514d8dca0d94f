/** The screen stack as `router.replace` changes it: only the current path is kept. */
module Navigation {

  const LoginPath: string := "/login"
  const TabsPath: string := "/(tabs)"

  class Router {
    var path: string

    constructor (path: string)
      ensures this.path == path
    {
      this.path := path;
    }

    /** `router.replace(path)` */
    method Replace(path: string)
      modifies this
      ensures this.path == path
    {
      this.path := path;
    }
  }
}
