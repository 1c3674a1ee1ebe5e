/** The shapes of HTTP response the modelled views and middleware return. */
module Http {

  /** `request.method`: `POST`, or any other method. */
  datatype Verb = Post | NonPost

  /** The form a page is rendered with: a fresh one, or the submitted one with its validation
      errors plus the errors the view added to it. */
  datatype Form = Unbound | Bound(added: seq<string>)

  datatype Response =
    | Redirect(to: string)                          // `redirect(name)`: `to` is the URL name passed to it
    | RedirectToLogin                               // `@login_required` turning an anonymous user away
    | Render(template: string, form: Form)          // `render(request, template, {'form': form})`
    | Json(status: nat, key: string, value: string) // `JsonResponse({key: value}, status=status)`
    | ServerError                                   // an exception the view does not catch
}
